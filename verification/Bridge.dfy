/**
  The realtime call session: one coroutine turns provider messages into queued frames, another takes them
  and writes them to the call, an interruption tears the output path down, and closing the session ends what
  is still open on its timeline.

  The producer's methods call `OthersRun` wherever the source awaits: any number of steps of the writing
  coroutine and of the closing one happen there, in any order and at any times.
 */
module RealtimeBridge {
  import opened Common
  import opened Pcm16
  import opened Resampler
  import opened PacketSources
  import opened ProviderOutput
  import opened PlaybackQueue
  import opened BoundedSample
  import opened BridgeState
  import opened CallTimeline
  import opened FrameCutting
  import Ids = EventIds

  /** As `Expose`, for the invariants of the session itself. */
  ghost predicate Open(n: nat) {
    true
  }

  // ---------------------------------------------------------------- which frames were started

  function Ordinals(written: seq<Written>): seq<nat> {
    seq(|written|, i requires 0 <= i < |written| => written[i].ordinal)
  }

  /** The frames that were reported as started, and the one being written. */
  function HandedOver(written: seq<Written>, writing: Option<nat>): seq<nat> {
    Ordinals(written) + if writing.Some? then [writing.value] else []
  }

  /**
    The frames handed over were taken from the queue, each once and in order.  Of those started since the
    queue was last drained all but at most one had been put since; that one is the frame that was being written.
   */
  ghost predicate IsHanded(written: seq<Written>, writing: Option<nat>, fates: seq<Fate>, startedAtDrain: nat,
                           inTransit: Option<nat>, drainedAt: nat)
  {
    var ordinals := HandedOver(written, writing);
    && startedAtDrain <= |written|
    && Increasing(ordinals)
    && (forall i :: 0 <= i < |ordinals| ==> 0 < ordinals[i] <= |fates| && fates[ordinals[i] - 1] == Delivered)
    && (forall i :: startedAtDrain <= i < |ordinals| ==>
          ordinals[i] > drainedAt || (i == startedAtDrain && inTransit == Some(ordinals[i])))
  }

  ghost predicate Handed(written: seq<Written>, writing: Option<nat>, fates: seq<Fate>, startedAtDrain: nat,
                         inTransit: Option<nat>, drainedAt: nat)
  {
    forall n: nat {:trigger Expose(n)} ::
      Expose(n) ==> IsHanded(written, writing, fates, startedAtDrain, inTransit, drainedAt)
  }

  lemma NothingHanded()
    ensures Handed([], None, [], 0, None, 0)
  {}

  lemma HandedTake(written: seq<Written>, fates: seq<Fate>, startedAtDrain: nat, inTransit: Option<nat>, drainedAt: nat)
    requires Handed(written, None, fates, startedAtDrain, inTransit, drainedAt) && drainedAt <= |fates|
    ensures Handed(written, Some(|fates| + 1), fates + [Delivered], startedAtDrain, inTransit, drainedAt)
  {
    assert Expose(0);
    assert HandedOver(written, None) == Ordinals(written);
  }

  lemma HandedStart(written: seq<Written>, entry: Written, fates: seq<Fate>, startedAtDrain: nat,
                    inTransit: Option<nat>, drainedAt: nat)
    requires Handed(written, Some(entry.ordinal), fates, startedAtDrain, inTransit, drainedAt)
    ensures Handed(written + [entry], None, fates, startedAtDrain, inTransit, drainedAt)
  {
    assert Expose(0);
    assert HandedOver(written + [entry], None) == HandedOver(written, Some(entry.ordinal));
  }

  /** A frame whose write fails is never reported as started. */
  lemma HandedFail(written: seq<Written>, writing: Option<nat>, fates: seq<Fate>, startedAtDrain: nat,
                   inTransit: Option<nat>, drainedAt: nat)
    requires Handed(written, writing, fates, startedAtDrain, inTransit, drainedAt)
    ensures Handed(written, None, fates, startedAtDrain, inTransit, drainedAt)
  {
    assert Expose(0);
    assert HandedOver(written, None) == HandedOver(written, writing)[..|written|];
  }

  lemma HandedLater(written: seq<Written>, writing: Option<nat>, fates: seq<Fate>, longer: seq<Fate>,
                    startedAtDrain: nat, inTransit: Option<nat>, drainedAt: nat)
    requires Handed(written, writing, fates, startedAtDrain, inTransit, drainedAt) && fates <= longer
    ensures Handed(written, writing, longer, startedAtDrain, inTransit, drainedAt)
  {
    assert Expose(0);
  }

  /** When the queue is drained, only the frame being written is still on its way to the caller. */
  lemma HandedDrain(written: seq<Written>, writing: Option<nat>, fates: seq<Fate>, longer: seq<Fate>,
                    startedAtDrain: nat, inTransit: Option<nat>, drainedAt: nat, next: nat)
    requires Handed(written, writing, fates, startedAtDrain, inTransit, drainedAt) && fates <= longer
    ensures Handed(written, writing, longer, |written|, writing, next)
  {
    assert Expose(0);
  }

  lemma HandedMeans(written: seq<Written>, writing: Option<nat>, fates: seq<Fate>, startedAtDrain: nat,
                    inTransit: Option<nat>, drainedAt: nat)
    requires Handed(written, writing, fates, startedAtDrain, inTransit, drainedAt)
    ensures startedAtDrain <= |written|
    ensures forall i, j :: 0 <= i < j < |written| ==> written[i].ordinal < written[j].ordinal
    ensures forall i :: 0 <= i < |written| ==>
      0 < written[i].ordinal <= |fates| && fates[written[i].ordinal - 1] == Delivered
    ensures forall i :: startedAtDrain <= i < |written| ==>
      written[i].ordinal > drainedAt || (i == startedAtDrain && inTransit == Some(written[i].ordinal))
  {
    assert Expose(0);
    var ordinals := HandedOver(written, writing);
    assert forall i :: 0 <= i < |written| ==> written[i].ordinal == ordinals[i];
  }

  // ---------------------------------------------------------------- what only grows

  /** What has happened so far. */
  datatype Past = Past(history: seq<Frame>, origins: seq<seq<nat>>, fates: seq<Fate>, written: seq<Written>,
                       timeline: seq<TimelineEvent>, barrier: nat)

  ghost predicate IsLater(past: Past, now: Past) {
    && past.history <= now.history && past.origins <= now.origins && past.fates <= now.fates
    && past.written <= now.written && past.timeline <= now.timeline && past.barrier <= now.barrier
  }

  ghost predicate Later(past: Past, now: Past) {
    forall n: nat {:trigger Expose(n)} :: Expose(n) ==> IsLater(past, now)
  }

  lemma LaterMeans(past: Past, now: Past)
    ensures Later(past, now) <==> IsLater(past, now)
  {
    assert Expose(0);
  }

  lemma StillLater(a: Past, b: Past, c: Past)
    requires Later(a, b) && Later(b, c)
    ensures Later(a, c)
  {
    assert Expose(0);
  }

  // ---------------------------------------------------------------- what the messages amount to

  /** What the session carries of the messages themselves, whatever happens to the frames cut from them. */
  datatype Input = Input(ordinal: nat, item: Option<Item>, epoch: seq<Chunk>, barge: nat, barrier: nat)

  const INTERRUPTIONS := {"input_speech_started", "interrupted"}

  /**
    A chunk of the same item goes on with the epoch, one of another item starts a new one; an interruption
    forgets both item and epoch.
   */
  function Feed(input: Input, message: Message): Input {
    match message
    case ProviderEvent(eventType, _, _, _) =>
      if eventType in INTERRUPTIONS then Input(input.ordinal, None, [], input.barge + 1, input.ordinal) else input
    case ProviderAudio(pcm, sampleRate, _, _, item, _) =>
      if Usable(message) then
        Input(input.ordinal + 1, item,
              (if item == input.item then input.epoch else []) + [Chunk(input.ordinal + 1, Unpack(pcm), sampleRate)],
              input.barge, input.barrier)
      else input
  }

  function FeedAll(input: Input, messages: seq<Message>): Input {
    if messages == [] then input
    else Feed(FeedAll(input, messages[..|messages| - 1]), messages[|messages| - 1])
  }

  lemma FeedNext(input: Input, messages: seq<Message>, n: nat)
    requires n < |messages|
    ensures FeedAll(input, messages[..n + 1]) == Feed(FeedAll(input, messages[..n]), messages[n])
  {
    assert messages[..n + 1][..n] == messages[..n];
  }

  /** Whether an accepted message makes the output path start from nothing. */
  predicate Restarts(input: Input, message: Message) {
    match message
    case ProviderEvent(eventType, _, _, _) => eventType in INTERRUPTIONS
    case ProviderAudio(_, _, _, _, item, _) => item != input.item
  }

  // ---------------------------------------------------------------- the frames that the messages amount to

  /** The constants of the output path. */
  datatype OutputPath = OutputPath(rate: Rate, shape: Shape, packetBytes: nat)

  /** What a frame must carry: its bytes, the chunk behind each of them, and its position in the item. */
  datatype FramePlan = FramePlan(payload: seq<Byte>, origins: seq<nat>, position: Option<Position>)

  /** Bytes cut into whole frames of an item, of which the first is the `k`-th; what is left over is not planned. */
  function Planned(bytes: seq<Byte>, origins: seq<nat>, item: Option<Item>, packetBytes: nat, k: nat): seq<FramePlan>
    decreases |bytes|
  {
    if packetBytes == 0 || |bytes| < packetBytes || |origins| < packetBytes then []
    else
      [FramePlan(bytes[..packetBytes], origins[..packetBytes], PositionOf(item, k))]
      + Planned(bytes[packetBytes..], origins[packetBytes..], item, packetBytes, k + 1)
  }

  function EpochPlan(path: OutputPath, input: Input): seq<FramePlan> {
    Planned(Rendered(input.epoch, path.rate, path.shape), Origins(input.epoch, path.rate, path.shape), input.item,
            path.packetBytes, 1)
  }

  function EarlierAfter(path: OutputPath, input: Input, earlier: seq<FramePlan>, message: Message): seq<FramePlan> {
    if Restarts(input, message) then earlier + EpochPlan(path, input) else earlier
  }

  /** The frames of the epochs that are over. */
  function Earlier(path: OutputPath, input: Input, earlier: seq<FramePlan>, messages: seq<Message>): seq<FramePlan> {
    if messages == [] then earlier
    else
      var init, last := messages[..|messages| - 1], messages[|messages| - 1];
      EarlierAfter(path, FeedAll(input, init), Earlier(path, input, earlier, init), last)
  }

  /** All frames that the messages amount to: those of the epochs that are over, then those of the current one. */
  function PlanAll(path: OutputPath, input: Input, earlier: seq<FramePlan>, messages: seq<Message>): seq<FramePlan> {
    Earlier(path, input, earlier, messages) + EpochPlan(path, FeedAll(input, messages))
  }

  lemma EarlierNext(path: OutputPath, input: Input, earlier: seq<FramePlan>, messages: seq<Message>, n: nat)
    requires n < |messages|
    ensures Earlier(path, input, earlier, messages[..n + 1])
         == EarlierAfter(path, FeedAll(input, messages[..n]), Earlier(path, input, earlier, messages[..n]), messages[n])
  {
    assert messages[..n + 1][..n] == messages[..n];
  }

  /** What frames carry, given the chunk behind each of their bytes. */
  ghost function PlanOf(frames: seq<Frame>, origins: seq<seq<nat>>): seq<FramePlan>
    requires |frames| == |origins|
  {
    seq(|frames|, i requires 0 <= i < |frames| => FramePlan(frames[i].payload, origins[i], frames[i].position))
  }

  /** Whole frames at successive positions are the plan of their bytes, whatever less than a frame follows. */
  lemma {:induction false} PlanIs(frames: seq<Frame>, origins: seq<seq<nat>>, rest: seq<Byte>, restOrigins: seq<nat>,
                                  item: Option<Item>, packetBytes: nat, k: nat)
    requires packetBytes > 0 && |rest| < packetBytes && |frames| == |origins|
    requires forall i :: 0 <= i < |frames| ==> |frames[i].payload| == |origins[i]| == packetBytes
    requires forall i :: 0 <= i < |frames| ==> frames[i].position == PositionOf(item, k + i)
    ensures Planned(Flatten(Payloads(frames)) + rest, Flatten(origins) + restOrigins, item, packetBytes, k)
         == PlanOf(frames, origins)
    decreases |frames|
  {
    if frames == [] {
      assert Payloads(frames) == [] && Flatten(Payloads(frames)) + rest == rest;
    } else {
      assert Payloads(frames)[1..] == Payloads(frames[1..]);
      PlanIs(frames[1..], origins[1..], rest, restOrigins, item, packetBytes, k + 1);
      FirstPart(frames[0].payload, Flatten(Payloads(frames[1..])), rest);
      FirstPart(origins[0], Flatten(origins[1..]), restOrigins);
    }
  }

  /** The whole frames of an epoch and a rest of less than a frame: the frames are the epoch's plan. */
  lemma PlanIsEpoch(path: OutputPath, input: Input, frames: seq<Frame>, origins: seq<seq<nat>>, rest: seq<Byte>,
                    restOrigins: seq<nat>)
    requires |frames| == |origins| && (path.packetBytes == 0 ==> frames == [])
    requires path.packetBytes > 0 ==> |rest| < path.packetBytes
    requires forall i :: 0 <= i < |frames| ==> |frames[i].payload| == |origins[i]| == path.packetBytes
    requires forall i :: 0 <= i < |frames| ==> frames[i].position == PositionOf(input.item, 1 + i)
    requires Rendered(input.epoch, path.rate, path.shape) == Flatten(Payloads(frames)) + rest
    requires Origins(input.epoch, path.rate, path.shape) == Flatten(origins) + restOrigins
    ensures PlanOf(frames, origins) == EpochPlan(path, input)
  {
    if path.packetBytes > 0 {
      PlanIs(frames, origins, rest, restOrigins, input.item, path.packetBytes, 1);
    }
  }

  lemma FirstPart<T>(first: seq<T>, more: seq<T>, rest: seq<T>)
    ensures ((first + more) + rest)[..|first|] == first
    ensures ((first + more) + rest)[|first|..] == more + rest
  {}

  lemma PlanSplits(frames: seq<Frame>, origins: seq<seq<nat>>, n: nat)
    requires n <= |frames| == |origins|
    ensures PlanOf(frames, origins) == PlanOf(frames[..n], origins[..n]) + PlanOf(frames[n..], origins[n..])
  {}

  /** The chunks that usable messages of one item are, numbered on. */
  ghost predicate OfItem(messages: seq<Message>, item: Option<Item>) {
    forall i :: 0 <= i < |messages| ==>
      messages[i].ProviderAudio? && Usable(messages[i]) && messages[i].item == item
  }

  function ChunkOf(message: Message, ordinal: nat): Chunk
    requires message.ProviderAudio? && Usable(message)
  {
    Chunk(ordinal, Unpack(message.pcm), message.sampleRate)
  }

  ghost function ChunksOf(messages: seq<Message>, item: Option<Item>, ordinal: nat): seq<Chunk>
    requires OfItem(messages, item)
  {
    seq(|messages|, i requires 0 <= i < |messages| => ChunkOf(messages[i], ordinal + i + 1))
  }

  /** A run of usable messages of one item goes on with the epoch of the item, or is an epoch of its own. */
  lemma {:induction false} RunOfOneItem(path: OutputPath, input: Input, earlier: seq<FramePlan>, messages: seq<Message>,
                                        item: Option<Item>)
    requires messages != [] && OfItem(messages, item)
    ensures FeedAll(input, messages).item == item
    ensures FeedAll(input, messages).ordinal == input.ordinal + |messages|
    ensures FeedAll(input, messages).epoch
         == (if item == input.item then input.epoch else []) + ChunksOf(messages, item, input.ordinal)
    ensures Earlier(path, input, earlier, messages)
         == if item == input.item then earlier else earlier + EpochPlan(path, input)
  {
    var n := |messages| - 1;
    var init, last := messages[..n], messages[n];
    assert last.ProviderAudio? && Usable(last) && last.item == item;
    if init == [] {
      FeedsItem(path, input, earlier, last, item);
      assert ChunksOf(messages, item, input.ordinal) == [ChunkOf(last, input.ordinal + 1)];
    } else {
      assert OfItem(init, item);
      RunOfOneItem(path, input, earlier, init, item);
      FeedsItem(path, FeedAll(input, init), Earlier(path, input, earlier, init), last, item);
      assert ChunksOf(messages, item, input.ordinal)
          == ChunksOf(init, item, input.ordinal) + [ChunkOf(last, input.ordinal + n + 1)];
      ConcatAssociates(if item == input.item then input.epoch else [], ChunksOf(init, item, input.ordinal),
                       [ChunkOf(last, input.ordinal + n + 1)]);
    }
  }

  /** One usable message of the item. */
  lemma FeedsItem(path: OutputPath, input: Input, earlier: seq<FramePlan>, message: Message, item: Option<Item>)
    requires message.ProviderAudio? && Usable(message) && message.item == item
    ensures Feed(input, message).item == item && Feed(input, message).ordinal == input.ordinal + 1
    ensures Feed(input, message).epoch
         == (if item == input.item then input.epoch else []) + [ChunkOf(message, input.ordinal + 1)]
    ensures EarlierAfter(path, input, earlier, message)
         == if item == input.item then earlier else earlier + EpochPlan(path, input)
  {}

  /**
    So the frames that such a run adds to those of before are the whole frames of what all its chunks render to,
    together with those of the epoch that it goes on with.
   */
  lemma FramesOfOneItem(path: OutputPath, input: Input, earlier: seq<FramePlan>, messages: seq<Message>, item: Option<Item>)
    requires messages != [] && OfItem(messages, item)
    ensures var chunks := (if item == input.item then input.epoch else []) + ChunksOf(messages, item, input.ordinal);
            PlanAll(path, input, earlier, messages)
            == (if item == input.item then earlier else earlier + EpochPlan(path, input))
               + Planned(Rendered(chunks, path.rate, path.shape), Origins(chunks, path.rate, path.shape), item,
                         path.packetBytes, 1)
  {
    RunOfOneItem(path, input, earlier, messages, item);
  }

  /** A message that the bridge cannot fail on: the provider answers, and its audio can be used. */
  predicate Harmless(message: Message) {
    match message
    case ProviderEvent(_, _, interrupt, truncate) => !interrupt.Raises? && !truncate.Raises?
    case ProviderAudio(_, _, _, _, _, _) => Usable(message)
  }

  /** How the producer ends: the stream does, or a persistent stream does, which is a failure, or it raises. */
  datatype Ending = Ended | EndedTooSoon | Failed(error: string)

  /** A step of one of the other coroutines, from one of its awaits to the next. */
  datatype Step = Pumps(now: int, fails: bool) | Closes

  class RealtimeCallSession {
    const provider: ProviderTraits
    const cutter: FrameCutter
    const log: CallLog

    var pump: Pump
    var lastPlaybackPosition: Option<Position>
    var inflightPosition: Option<Position>
    var inflightStartedAt: int
    var closed: bool
    var closing: bool                      // the provider session is being closed

    ghost var startedAtDrain: nat          // how many frames had been started when the queue was last drained
    ghost var inTransit: Option<nat>       // the number of the frame that was being written then

    ghost predicate Heard(position: Position)
      reads cutter.playback`history, cutter.playback`fates
    {
      HeardIn(cutter.playback.history, cutter.playback.fates, position)
    }

    ghost predicate Taken(frame: Frame)
      reads cutter.playback`history, cutter.playback`fates
    {
      TakenFrom(cutter.playback.history, cutter.playback.fates, frame)
    }

    ghost function InWriting(): Option<nat>
      reads this`pump
    {
      if pump.Writing? then Some(pump.frame.ordinal) else None
    }

    /** The consumer only speaks of frames it took from the queue. */
    ghost predicate Played()
      reads this`lastPlaybackPosition, this`inflightPosition, this`pump, cutter.playback`history, cutter.playback`fates
    {
      PlayedIn(cutter.playback.history, cutter.playback.fates)
    }

    ghost predicate Started()
      reads this`pump, this`startedAtDrain, this`inTransit, log`written, cutter.playback`fates, cutter`drainedAt
    {
      Handed(log.written, InWriting(), cutter.playback.fates, startedAtDrain, inTransit, cutter.drainedAt)
    }

    ghost function Now(): Past
      reads cutter.playback`history, cutter.playback`fates, cutter`frameOrigins, cutter`barrier
      reads log`written, log`timeline
    {
      Past(cutter.playback.history, cutter.frameOrigins, cutter.playback.fates, log.written, log.timeline, cutter.barrier)
    }

    ghost function Path(): OutputPath {
      OutputPath(cutter.telephonyRate, cutter.shape, cutter.packetBytes)
    }

    ghost function InputNow(): Input
      reads cutter`chunkOrdinal, cutter`currentItem, cutter`epoch, cutter`barrier, log`bargeSequence
    {
      Input(cutter.chunkOrdinal, cutter.currentItem, cutter.epoch, log.bargeSequence, cutter.barrier)
    }

    /** What the other coroutines need and keep. */
    ghost predicate Consuming()
      reads this, cutter.playback, cutter, log
    {
      forall n: nat {:trigger Open(n)} ::
        Open(n) ==>
          cutter.Queued() && cutter.Fenced() && log.Valid() && Played() && Started() && (closing ==> closed)
    }

    /** What holds whenever the producer awaits, a frame in hand or not. */
    ghost predicate Producing()
      reads this, cutter.playback, cutter, log
    {
      forall n: nat {:trigger Open(n)} ::
        Open(n) ==>
          && Consuming() && cutter.Buffered() && cutter.Recent() && cutter.Numbered() && cutter.Metered()
          && cutter.Rendering()
    }

    ghost predicate Cutting()
      reads this, cutter.playback, cutter, log
    {
      Producing() && cutter.inHand == []
    }

    ghost predicate Valid()
      reads this, cutter.playback, cutter, log
    {
      Cutting() && cutter.Recalled()
    }

    constructor (telephonyRate: Rate, shape: Shape, provider: ProviderTraits)
      ensures Valid() && fresh(cutter) && fresh(log) && fresh(cutter.playback) && cutter.outputResampler == None
      ensures log.timeline == [] && cutter.playback.history == [] && cutter.chunkOrdinal == 0
      ensures !closed && !closing && Trimmed()
      ensures this.provider == provider && cutter.shape == shape
      ensures cutter.telephonyRate == telephonyRate && log.telephonyRate == telephonyRate
      ensures pump == Resting(None) && lastPlaybackPosition == None && inflightPosition == None
    {
      this.provider := provider;
      var cutter := new FrameCutter(telephonyRate, shape);
      this.cutter := cutter;
      log := new CallLog(telephonyRate);
      pump, lastPlaybackPosition, inflightPosition, inflightStartedAt := Resting(None), None, None, 0;
      closed, closing := false, false;
      startedAtDrain, inTransit := 0, None;
      new;
      NothingHanded();
      StartsValid();
    }

    lemma StartsValid()
      requires cutter.Valid() && cutter.Rendering() && cutter.Metered() && cutter.inHand == [] && log.Valid()
      requires pump == Resting(None) && lastPlaybackPosition.None? && inflightPosition.None? && !closing && Started()
      ensures Valid()
    {
    }

    // ---------------------------------------------------------------- the consumer

    /** The frame has been written: it is reported as started, and the coroutine rests until the next is due. */
    method MarkOutputStarted(frame: Frame, now: int)
      requires Consuming() && pump == Writing(frame)
      modifies this`inflightPosition, this`inflightStartedAt, this`pump
      modifies log`timeline, log`activePlayback, log`playbackSequence, log`writtenBytes, log`lastPlayedAt, log`written
      ensures Consuming() && log.activePlayback.Some? && OnlyPlayback(old(log.Issue()), log.Issue())
      ensures old(log.timeline) <= log.timeline && pump == Resting(Some(frame))
      ensures log.written == old(log.written) + [Written(log.playbackSequence, |frame.payload|, frame.ordinal)]
      ensures frame.position.Some? ==> inflightPosition == frame.position && inflightStartedAt == now
      ensures frame.position.None? ==> inflightPosition == old(inflightPosition)
    {
      ReportStarted(frame, now);
      if frame.position.Some? {
        assert Open(0);
        PositionIsHeard(frame);
        inflightPosition, inflightStartedAt := frame.position, now;
      }
    }

    method ReportStarted(frame: Frame, now: int)
      requires Consuming() && pump == Writing(frame)
      modifies this`pump
      modifies log`timeline, log`activePlayback, log`playbackSequence, log`writtenBytes, log`lastPlayedAt, log`written
      ensures Consuming() && Taken(frame) && log.activePlayback.Some? && OnlyPlayback(old(log.Issue()), log.Issue())
      ensures old(log.timeline) <= log.timeline && pump == Resting(Some(frame))
      ensures log.written == old(log.written) + [Written(log.playbackSequence, |frame.payload|, frame.ordinal)]
    {
      assert Open(0);
      log.MarkOutputStarted(|frame.payload|, frame.ordinal, now);
      HandedStart(old(log.written), Written(log.playbackSequence, |frame.payload|, frame.ordinal), cutter.playback.fates,
                  startedAtDrain, inTransit, cutter.drainedAt);
      pump := Resting(Some(frame));
    }

    lemma PositionIsHeard(frame: Frame)
      requires Taken(frame) && frame.position.Some?
      ensures Heard(frame.position.value)
    {
      var i :| 0 <= i < |cutter.playback.fates| && i < |cutter.playback.history| && cutter.playback.fates[i] == Delivered
               && cutter.playback.history[i] == frame;
    }

    method MarkOutputPlayed(frame: Frame, now: int)
      requires Consuming() && Taken(frame)
      modifies this`lastPlaybackPosition, this`inflightPosition, log`lastPlayedAt, log`lastFrameBytes
      ensures Consuming()
      ensures var current := frame.position.Some? && cutter.currentItem == Some(frame.position.value.item);
              && lastPlaybackPosition == (if current then frame.position else old(lastPlaybackPosition))
              && inflightPosition == (if current && old(inflightPosition) == frame.position then None
                                      else old(inflightPosition))
      ensures log.activePlayback.Some? ==> log.lastPlayedAt == Some(now) && log.lastFrameBytes == |frame.payload|
    {
      assert Open(0);
      log.MarkOutputPlayed(|frame.payload|, now);
      if frame.position.None? || cutter.currentItem.None? || frame.position.value.item != cutter.currentItem.value {
        return;
      }
      PositionIsHeard(frame);
      lastPlaybackPosition := frame.position;
      if inflightPosition == frame.position {
        inflightPosition := None;
      }
    }

    method MarkOutputEnded(reason: string)
      requires Consuming()
      modifies log`timeline, log`activePlayback, log`writtenBytes, log`lastPlayedAt
      ensures Consuming() && log.activePlayback == None && OnlyPlayback(old(log.Issue()), log.Issue())
      ensures old(log.timeline) <= log.timeline
      ensures log.timeline == old(log.timeline)
        + BurstEnd(old(log.activePlayback), BytesOf(log.written, log.playbackSequence), reason)
    {
      assert Open(0);
      log.EndAssistantPlayback(reason);
    }

    /** Some frame of the same item that was taken from the queue ends at or after the position. */
    ghost predicate NotBeyondHeard(position: Position)
      reads cutter.playback`history, cutter.playback`fates
    {
      && 0 <= position.audioEndMs
      && exists heard: Position :: Heard(heard) && heard.item == position.item && position.audioEndMs <= heard.audioEndMs
    }

    lemma HeardIsPositive(position: Position)
      requires cutter.Queued() && Heard(position)
      ensures position.audioEndMs >= 20
    {
      var i :| 0 <= i < |cutter.playback.fates| && i < |cutter.playback.history| && cutter.playback.fates[i] == Delivered
               && cutter.playback.history[i].position == Some(position);
      cutter.FrameAt(i);
    }

    predicate PlayedSameItem()
      reads this`lastPlaybackPosition, this`inflightPosition
    {
      lastPlaybackPosition.Some? && inflightPosition.Some? && lastPlaybackPosition.value.item == inflightPosition.value.item
    }

    /** How far into its item the caller has heard: never beyond a frame taken from the queue. */
    method EffectivePlaybackPosition(now: int) returns (position: Option<Position>)
      requires Consuming()
      ensures position == EffectiveAt(lastPlaybackPosition, inflightPosition, now - inflightStartedAt)
      ensures position.Some? ==> NotBeyondHeard(position.value)
      ensures inflightPosition.None? ==> position == lastPlaybackPosition
      ensures inflightPosition.Some? ==>
        && position.Some? && position.value.item == inflightPosition.value.item
        && position.value.audioEndMs <= inflightPosition.value.audioEndMs
        && (!PlayedSameItem() ==> inflightPosition.value.audioEndMs - 20 <= position.value.audioEndMs)
        && (PlayedSameItem() && lastPlaybackPosition.value.audioEndMs <= inflightPosition.value.audioEndMs ==>
              position.value.audioEndMs >= lastPlaybackPosition.value.audioEndMs)
      ensures inflightPosition.Some? && now - inflightStartedAt >= 20_000 ==>
        (position == inflightPosition <==>
          || !PlayedSameItem()
          || inflightPosition.value.audioEndMs <= lastPlaybackPosition.value.audioEndMs + (now - inflightStartedAt) / 1000)
    {
      assert Open(0);
      if inflightPosition.None? {
        if lastPlaybackPosition.Some? { HeardIsPositive(lastPlaybackPosition.value); }
        return lastPlaybackPosition;
      }
      var inflight := inflightPosition.value;
      HeardIsPositive(inflight);
      var start := if inflight.audioEndMs > 20 then inflight.audioEndMs - 20 else 0;
      if lastPlaybackPosition.Some? && lastPlaybackPosition.value.item == inflight.item {
        HeardIsPositive(lastPlaybackPosition.value);
        start := lastPlaybackPosition.value.audioEndMs;
      }
      var elapsed := if now < inflightStartedAt then 0 else (now - inflightStartedAt) / 1000;
      var end := if inflight.audioEndMs < start + elapsed then inflight.audioEndMs else start + elapsed;
      return Some(Position(inflight.item, end));
    }

    ghost predicate PlayedIn(history: seq<Frame>, fates: seq<Fate>)
      reads this`lastPlaybackPosition, this`inflightPosition, this`pump
    {
      && (lastPlaybackPosition.Some? ==> HeardIn(history, fates, lastPlaybackPosition.value))
      && (inflightPosition.Some? ==> HeardIn(history, fates, inflightPosition.value))
      && (pump.Writing? ==> TakenFrom(history, fates, pump.frame))
      && (pump.Resting? && pump.previous.Some? ==> TakenFrom(history, fates, pump.previous.value))
    }

    /** Frames that were taken stay taken as the queue moves on. */
    lemma StillPlayed(history: seq<Frame>, fates: seq<Fate>)
      requires PlayedIn(history, fates) && history <= cutter.playback.history && fates <= cutter.playback.fates
      ensures Played()
    {
      var grown, longer := cutter.playback.history, cutter.playback.fates;
      if lastPlaybackPosition.Some? { StillHeard(history, grown, fates, longer, lastPlaybackPosition.value); }
      if inflightPosition.Some? { StillHeard(history, grown, fates, longer, inflightPosition.value); }
      if pump.Writing? { StillTaken(history, grown, fates, longer, pump.frame); }
      if pump.Resting? && pump.previous.Some? { StillTaken(history, grown, fates, longer, pump.previous.value); }
    }

    method TakeNext()
      requires Consuming() && pump.Waiting? && cutter.playback.frames != []
      modifies this`pump, cutter.playback`frames, cutter.playback`fates
      ensures Consuming() && pump == Writing(old(cutter.playback.frames)[0])
      ensures old(cutter.playback.fates) <= cutter.playback.fates
      ensures Tally(cutter.playback.fates, Dropped) == Tally(old(cutter.playback.fates), Dropped)
    {
      assert Open(0);
      ghost var fates := cutter.playback.fates;
      var frame := cutter.TakeFrame();
      StillPlayed(cutter.playback.history, fates);
      HandedTake(log.written, fates, startedAtDrain, inTransit, cutter.drainedAt);
      PlacesAppend(fates, [Delivered], Dropped);
      pump := Writing(frame.value);
    }

    /** It fails, or is cancelled, at its await: nothing more is written or reported. */
    method Stop()
      requires Consuming()
      modifies this`pump
      ensures Consuming() && pump == Finished
    {
      assert Open(0);
      HandedFail(log.written, InWriting(), cutter.playback.fates, startedAtDrain, inTransit, cutter.drainedAt);
      pump := Finished;
    }

    /** The frame that was started has been heard. */
    method PlayPrevious(now: int)
      requires Consuming() && pump.Resting?
      modifies this`lastPlaybackPosition, this`inflightPosition, this`pump, log`lastPlayedAt, log`lastFrameBytes
      ensures Consuming() && pump == Waiting && HasPlayed(old(pump).previous, old(lastPlaybackPosition))
      ensures old(pump).previous.Some? && log.activePlayback.Some? ==>
        log.lastPlayedAt == Some(now) && log.lastFrameBytes == |old(pump).previous.value.payload|
    {
      assert Open(0);
      if pump.previous.Some? { MarkOutputPlayed(pump.previous.value, now); }
      assert Open(0);
      pump := Waiting;
    }

    /** The frame, if of the current item, is the last one heard; otherwise nothing new is. */
    ghost predicate HasPlayed(frame: Option<Frame>, before: Option<Position>)
      reads this`lastPlaybackPosition, cutter`currentItem
    {
      lastPlaybackPosition
      == if frame.Some? && frame.value.position.Some? && cutter.currentItem == Some(frame.value.position.value.item)
         then frame.value.position else before
    }

    method FinishOutput()
      requires Consuming() && pump.Waiting?
      modifies this`pump, log`timeline, log`activePlayback, log`writtenBytes, log`lastPlayedAt
      ensures Consuming() && pump == Finished && log.activePlayback == None
      ensures OnlyPlayback(old(log.Issue()), log.Issue()) && old(log.timeline) <= log.timeline
      ensures log.timeline == old(log.timeline)
        + BurstEnd(old(log.activePlayback), BytesOf(log.written, log.playbackSequence), "stream_ended")
    {
      MarkOutputEnded("stream_ended");
      Stop();
    }

    /** One step of `_pump_output`, up to its next await; `fails` if what it awaited raised or was cancelled. */
    method PumpStep(now: int, fails: bool)
      requires Consuming()
      modifies this`inflightPosition, this`inflightStartedAt, this`lastPlaybackPosition, this`pump
      modifies log`timeline, log`activePlayback, log`playbackSequence, log`writtenBytes, log`lastPlayedAt, log`written
      modifies log`lastFrameBytes, cutter.playback`frames, cutter.playback`fates
      ensures Consuming() && OnlyPlayback(old(log.Issue()), log.Issue()) && Later(old(Now()), Now())
      ensures Tally(cutter.playback.fates, Dropped) == Tally(old(cutter.playback.fates), Dropped)
      ensures pump == match old(pump)
                      case Finished => Finished
                      case Resting(_) => if fails then Finished else Waiting
                      case Waiting =>
                        if fails then Finished
                        else if old(cutter.playback.frames) != [] then Writing(old(cutter.playback.frames)[0])
                        else if cutter.playback.closed then Finished else Waiting
                      case Writing(frame) => if fails then Finished else Resting(Some(frame))
      ensures old(pump).Resting? && !fails ==> HasPlayed(old(pump).previous, old(lastPlaybackPosition))
      ensures old(pump).Resting? && !fails && old(pump).previous.Some? && log.activePlayback.Some? ==>
        log.lastPlayedAt == Some(now) && log.lastFrameBytes == |old(pump).previous.value.payload|
      ensures old(pump).Waiting? && pump.Finished? && !fails ==> log.activePlayback == None
      ensures old(pump).Writing? && !fails && old(pump).frame.position.Some? ==>
        inflightPosition == old(pump).frame.position && inflightStartedAt == now
      ensures log.written == old(log.written)
        + if old(pump).Writing? && !fails then
            [Written(log.playbackSequence, |old(pump).frame.payload|, old(pump).frame.ordinal)] else []
    {
      LaterMeans(Now(), Now());
      if fails {
        Stop();
      } else {
        match pump {
          case Resting(previous) => PlayPrevious(now);
          case Waiting =>
            if cutter.playback.frames != [] {
              TakeNext();
            } else if cutter.playback.closed {
              FinishOutput();
            }
          case Writing(frame) => MarkOutputStarted(frame, now);
          case Finished =>
        }
      }
      LaterMeans(old(Now()), Now());
    }

    /**
      One step of closing the session, up to its next await: the first call closes the provider session, and
      once that is done the caller's speech and the open burst end.  Further calls do nothing.
     */
    method CloseStep()
      requires Consuming()
      modifies this`closed, this`closing
      modifies log`timeline, log`activeSpeech, log`activePlayback, log`writtenBytes, log`lastPlayedAt
      ensures Consuming() && OnlyOthers(old(log.Issue()), log.Issue()) && Later(old(Now()), Now())
      ensures closed && closing == !old(closed)
      ensures old(closing) ==> log.activeSpeech == None && log.activePlayback == None
      ensures old(closing) ==>
        log.timeline == old(log.timeline) + SpeechEnd(old(log.activeSpeech), false, "call_closed")
          + BurstEnd(old(log.activePlayback), BytesOf(log.written, log.playbackSequence), "call_closed")
      ensures !old(closing) ==>
        && log.timeline == old(log.timeline)
        && log.activeSpeech == old(log.activeSpeech) && log.activePlayback == old(log.activePlayback)
    {
      LaterMeans(Now(), Now());
      if closing {
        EndAll();
      } else if !closed {
        assert Open(0);
        closed, closing := true, true;
      }
    }

    method EndAll()
      requires Consuming() && closing
      modifies this`closing
      modifies log`timeline, log`activeSpeech, log`activePlayback, log`writtenBytes, log`lastPlayedAt
      ensures Consuming() && OnlyOthers(old(log.Issue()), log.Issue()) && Later(old(Now()), Now())
      ensures closed && !closing && log.activeSpeech == None && log.activePlayback == None
      ensures log.timeline == old(log.timeline) + SpeechEnd(old(log.activeSpeech), false, "call_closed")
        + BurstEnd(old(log.activePlayback), BytesOf(log.written, log.playbackSequence), "call_closed")
    {
      EndSpeech();
      ghost var past := Now();
      MarkOutputEnded("call_closed");
      LaterMeans(past, Now());
      StillLater(old(Now()), past, Now());
    }

    method EndSpeech()
      requires Consuming() && closing
      modifies this`closing
      modifies log`timeline, log`activeSpeech
      ensures Consuming() && OnlyOthers(old(log.Issue()), log.Issue()) && Later(old(Now()), Now())
      ensures closed && !closing && log.activeSpeech == None
      ensures log.timeline == old(log.timeline) + SpeechEnd(old(log.activeSpeech), false, "call_closed")
    {
      assert Open(0);
      closing := false;
      log.EndCallerSpeech(false, "call_closed");
      LaterMeans(old(Now()), Now());
    }

    /** The others leave the caller's speech open, unless they close the session, which cannot be undone. */
    twostate predicate SpeechKept()
      reads this`closed, log`activeSpeech
    {
      && (old(closed) ==> closed)
      && (log.activeSpeech == old(log.activeSpeech) || (closed && log.activeSpeech == None))
    }

    /** What may happen at an await of the producer: any steps of the others, in any order and at any times. */
    method OthersRun()
      requires Consuming()
      modifies this`inflightPosition, this`inflightStartedAt, this`lastPlaybackPosition, this`pump, this`closed, this`closing
      modifies log`timeline, log`activePlayback, log`playbackSequence, log`writtenBytes, log`lastPlayedAt, log`written
      modifies log`lastFrameBytes, log`activeSpeech, cutter.playback`frames, cutter.playback`fates
      ensures Consuming() && OnlyOthers(old(log.Issue()), log.Issue()) && Later(old(Now()), Now())
      ensures Tally(cutter.playback.fates, Dropped) == Tally(old(cutter.playback.fates), Dropped)
      ensures SpeechKept()
    {
      LaterMeans(Now(), Now());
      var steps: seq<Step> := *;
      for i := 0 to |steps|
        invariant Consuming() && OnlyOthers(old(log.Issue()), log.Issue()) && Later(old(Now()), Now())
        invariant Tally(cutter.playback.fates, Dropped) == Tally(old(cutter.playback.fates), Dropped)
        invariant SpeechKept()
      {
        ghost var past := Now();
        match steps[i] {
          case Pumps(now, fails) => PumpStep(now, fails);
          case Closes => CloseStep();
        }
        StillLater(old(Now()), past, Now());
      }
    }

    // ---------------------------------------------------------------- provider audio

    method Enqueue(frame: Frame)
      requires cutter.InHand(frame) && Producing()
      modifies cutter.playback`frames, cutter.playback`fates, cutter.playback`history
      modifies cutter`inHand, cutter`framed, cutter`frameOrigins, cutter`cuts, cutter`outputFramesDropped
      ensures Cutting() && Later(old(Now()), Now())
      ensures cutter.outputFramesDropped
           == old(cutter.outputFramesDropped) + if |old(cutter.playback.frames)| == PLAYBACK_FRAMES then 1 else 0
    {
      assert Open(0);
      ghost var history, fates := cutter.playback.history, cutter.playback.fates;
      cutter.Enqueue(frame);
      StillPlayed(history, fates);
      HandedLater(log.written, InWriting(), fates, cutter.playback.fates, startedAtDrain, inTransit, cutter.drainedAt);
      LaterMeans(old(Now()), Now());
    }

    method AwaitPut(frame: Frame)
      requires cutter.InHand(frame) && Producing()
      modifies this`inflightPosition, this`inflightStartedAt, this`lastPlaybackPosition, this`pump, this`closed, this`closing
      modifies log`timeline, log`activePlayback, log`playbackSequence, log`writtenBytes, log`lastPlayedAt, log`written
      modifies log`lastFrameBytes, log`activeSpeech
      modifies cutter.playback`frames, cutter.playback`fates, cutter.playback`history
      modifies cutter`inHand, cutter`framed, cutter`frameOrigins, cutter`cuts, cutter`outputFramesDropped
      ensures Cutting() && Later(old(Now()), Now())
    {
      Await();
      ghost var past := Now();
      Enqueue(frame);
      StillLater(old(Now()), past, Now());
    }

    /** Whatever the producer was doing, the other coroutines leave it as it was. */
    method Await()
      requires Producing()
      modifies this`inflightPosition, this`inflightStartedAt, this`lastPlaybackPosition, this`pump, this`closed, this`closing
      modifies log`timeline, log`activePlayback, log`playbackSequence, log`writtenBytes, log`lastPlayedAt, log`written
      modifies log`lastFrameBytes, log`activeSpeech, cutter.playback`frames, cutter.playback`fates
      ensures Producing() && OnlyOthers(old(log.Issue()), log.Issue()) && Later(old(Now()), Now())
      ensures SpeechKept()
    {
      assert Open(0);
      OthersRun();
    }

    /** One whole frame is cut, then queued after an await. */
    method QueueFrame(now: int) returns (error: Option<string>)
      requires Cutting() && |cutter.packetBuffer| >= cutter.packetBytes
      modifies this`inflightPosition, this`inflightStartedAt, this`lastPlaybackPosition, this`pump, this`closed, this`closing
      modifies log`timeline, log`activePlayback, log`playbackSequence, log`writtenBytes, log`lastPlayedAt, log`written
      modifies log`lastFrameBytes, log`activeSpeech
      modifies cutter.playback`frames, cutter.playback`fates, cutter.playback`history
      modifies cutter`packetBuffer, cutter`packetSources, cutter`inHand, cutter`lastEnqueuedPosition, cutter`frameOrdinal
      modifies cutter`framed, cutter`frameOrigins, cutter`cuts, cutter`outputFramesDropped
      ensures Cutting() && Later(old(Now()), Now())
      ensures error.Some? <==> cutter.packetBytes == 0
      ensures error.None? ==> |cutter.packetBuffer| == |old(cutter.packetBuffer)| - cutter.packetBytes
    {
      LaterMeans(Now(), Now());
      var cut := CutFrame(now);
      if cut.Err? {
        return Some(cut.error);
      }
      AwaitPut(cut.value);
      return None;
    }

    method CutFrame(now: int) returns (cut: Result<Frame>)
      requires Cutting() && |cutter.packetBuffer| >= cutter.packetBytes
      modifies cutter`packetBuffer, cutter`packetSources, cutter`inHand, cutter`lastEnqueuedPosition, cutter`frameOrdinal
      ensures Producing()
      ensures cutter.packetBytes == 0 ==> cut.Err? && cutter.inHand == []
      ensures cutter.packetBytes > 0 ==>
        && cut.Ok? && cutter.InHand(cut.value)
        && |cutter.packetBuffer| == |old(cutter.packetBuffer)| - cutter.packetBytes
    {
      assert Open(0);
      cut := cutter.CutFrame(now);
    }

    /** All whole frames in the packet buffer are cut and queued. */
    method CutFrames(now: int) returns (error: Option<string>)
      requires Cutting()
      modifies this`inflightPosition, this`inflightStartedAt, this`lastPlaybackPosition, this`pump, this`closed, this`closing
      modifies log`timeline, log`activePlayback, log`playbackSequence, log`writtenBytes, log`lastPlayedAt, log`written
      modifies log`lastFrameBytes, log`activeSpeech
      modifies cutter.playback`frames, cutter.playback`fates, cutter.playback`history
      modifies cutter`packetBuffer, cutter`packetSources, cutter`inHand, cutter`lastEnqueuedPosition, cutter`frameOrdinal
      modifies cutter`framed, cutter`frameOrigins, cutter`cuts, cutter`outputFramesDropped
      ensures Cutting() && Later(old(Now()), Now())
      ensures error.None? ==> |cutter.packetBuffer| < cutter.packetBytes
      ensures error.Some? <==> cutter.packetBytes == 0
    {
      LaterMeans(Now(), Now());
      while |cutter.packetBuffer| >= cutter.packetBytes
        invariant Cutting() && Later(old(Now()), Now())
        decreases |cutter.packetBuffer|
      {
        ghost var past := Now();
        error := QueueFrame(now);
        StillLater(old(Now()), past, Now());
        if error.Some? {
          return;
        }
      }
      return None;
    }

    /** The stages report on the chunk, then its frames are cut. */
    method StagesThenCut(now: int) returns (error: Option<string>)
      requires Cutting()
      modifies this`inflightPosition, this`inflightStartedAt, this`lastPlaybackPosition, this`pump, this`closed, this`closing
      modifies log, cutter.playback`frames, cutter.playback`fates, cutter.playback`history
      modifies cutter`packetBuffer, cutter`packetSources, cutter`inHand, cutter`lastEnqueuedPosition, cutter`frameOrdinal
      modifies cutter`framed, cutter`frameOrigins, cutter`cuts, cutter`outputFramesDropped
      ensures Cutting() && Later(old(Now()), Now()) && log.bargeSequence == old(log.bargeSequence)
      ensures error.Some? <==> cutter.packetBytes == 0
      ensures Trimmed()
    {
      ObserveStages();
      ghost var past := Now();
      error := CutFrames(now);
      StillLater(old(Now()), past, Now());
    }

    /** Less than a frame is left in the packet buffer: every whole frame has been cut. */
    ghost predicate Trimmed()
      reads cutter`packetBuffer
    {
      cutter.packetBytes > 0 ==> |cutter.packetBuffer| < cutter.packetBytes
    }

    method ObserveStages()
      requires Cutting()
      modifies log`timeline, log`discontinuities
      ensures Cutting() && Later(old(Now()), Now())
    {
      assert Open(0);
      log.ObserveStages();
      LaterMeans(old(Now()), Now());
    }

    /** The epoch starts where it did, or after the frames put so far if the message starts a new one. */
    ghost predicate StartsRightly(input: Input, message: Message, before: nat, put: nat)
      reads cutter`epochStart
    {
      cutter.epochStart == if Restarts(input, message) then put else before
    }

    method Accept(audio: Message) returns (added: Result<nat>)
      requires audio.ProviderAudio? && Valid()
      modifies cutter`packetBuffer, cutter`packetSources, cutter`lastEnqueuedPosition
      modifies cutter`framed, cutter`outputResampler, cutter`epoch, cutter`bytes, cutter`byteOrigins
      modifies cutter`chunkOrdinal, cutter`recentChunks, cutter`currentItem, cutter`epochStart
      ensures Valid() && Now() == old(Now())
      ensures added.Ok? <==> Usable(audio)
      ensures |cutter.packetBuffer| <= |old(cutter.packetBuffer)| + if added.Ok? then added.value else 0
      ensures added.Ok? ==> InputNow() == Feed(old(InputNow()), audio)
      ensures added.Ok? ==> StartsRightly(old(InputNow()), audio, old(cutter.epochStart), |old(cutter.playback.history)|)
    {
      assert Open(0);
      added := cutter.ReceiveAudio(audio);
    }

    /** One message of provider audio: it is admitted, resampled, buffered and cut. */
    method ProcessAudio(audio: Message) returns (error: Option<string>)
      requires audio.ProviderAudio? && Valid()
      modifies this`inflightPosition, this`inflightStartedAt, this`lastPlaybackPosition, this`pump, this`closed, this`closing
      modifies log, cutter.playback`frames, cutter.playback`fates, cutter.playback`history
      modifies cutter`packetBuffer, cutter`packetSources, cutter`inHand, cutter`lastEnqueuedPosition, cutter`frameOrdinal
      modifies cutter`framed, cutter`frameOrigins, cutter`cuts, cutter`outputFramesDropped
      modifies cutter`outputResampler, cutter`epoch, cutter`bytes, cutter`byteOrigins
      modifies cutter`chunkOrdinal, cutter`recentChunks, cutter`currentItem, cutter`epochStart
      ensures Valid() && Later(old(Now()), Now())
      ensures error.None? ==> InputNow() == Feed(old(InputNow()), audio)
      ensures error.None? ==> StartsRightly(old(InputNow()), audio, old(cutter.epochStart), |old(cutter.playback.history)|)
      ensures Usable(audio) && cutter.packetBytes > 0 ==> error == None
      ensures !Usable(audio) ==> error.Some?
      ensures old(Trimmed()) ==> Trimmed()
    {
      LaterMeans(Now(), Now());
      var added := Accept(audio);
      error := if added.Err? then Some(added.error) else None;
      if added.Ok? && added.value > 0 {
        error := StagesThenCut(audio.at);
      }
    }

    // ---------------------------------------------------------------- interruptions

    method LogStep(step: nat, name: string, attributes: Attributes)
      requires Cutting() && log.bargeSequence > 0 && step == log.Issue().step + 1
      modifies log`timeline
      ensures Cutting() && log.Issue() == old(log.Issue()).(step := step) && Later(old(Now()), Now())
      ensures log.timeline == old(log.timeline) + [TimelineEvent(Ids.BargeStep(log.bargeSequence, step), name, attributes)]
    {
      assert Open(0);
      log.Step(step, name, attributes);
      LaterMeans(old(Now()), Now());
    }

    /** The provider is asked to stop speaking, unless it does so by itself or cannot. */
    method RequestInterrupt(reply: Reply) returns (failed: bool, step: nat, path: string)
      requires Cutting() && log.bargeSequence > 0 && log.Issue().step == 1
      modifies this`inflightPosition, this`inflightStartedAt, this`lastPlaybackPosition, this`pump, this`closed, this`closing
      modifies log`timeline, log`activePlayback, log`playbackSequence, log`writtenBytes, log`lastPlayedAt, log`written
      modifies log`lastFrameBytes, log`activeSpeech, cutter.playback`frames, cutter.playback`fates
      ensures Cutting() && OnlySteps(old(log.Issue()), log.Issue()) && Later(old(Now()), Now())
      ensures SpeechKept()
      ensures step == log.Issue().step + 1
      ensures failed <==> !provider.autoInterrupts && provider.canInterrupt && reply == Raises
      ensures path == PathOf(provider, true, reply)
      ensures !AwaitsInterrupt(true) ==>
        lastPlaybackPosition == old(lastPlaybackPosition) && inflightPosition == old(inflightPosition)
      ensures step == (if path == "unobserved" then 2 else 3)
      ensures path != "unobserved" ==>
        && |log.timeline| > 0
        && log.timeline[|log.timeline| - 1] == TimelineEvent(
             Ids.BargeStep(log.bargeSequence, 2),
             if provider.autoInterrupts then "provider_auto_interrupt_confirmed" else "provider_interrupt_requested",
             NoAttributes)
    {
      LaterMeans(Now(), Now());
      failed, step, path := false, 2, "unobserved";
      if provider.autoInterrupts {
        path := "provider-auto";
        LogStep(step, "provider_auto_interrupt_confirmed", NoAttributes);
        step := 3;
      } else if provider.canInterrupt {
        Await();
        failed := reply == Raises;
        if reply == Yes {
          path := "provider-request";
          ghost var past := Now();
          LogStep(step, "provider_interrupt_requested", NoAttributes);
          StillLater(old(Now()), past, Now());
          step := 3;
        }
      }
    }

    /** What the provider is told was heard: nothing of the current item if the caller is elsewhere. */
    method HeardPosition(now: int) returns (position: Option<Position>)
      requires Consuming()
      ensures IsTold(position, cutter.currentItem,
                     Hearing(lastPlaybackPosition, inflightPosition, now - inflightStartedAt))
      ensures position.Some? ==> NotBeyondHeard(position.value) || position.value.audioEndMs == 0
      ensures cutter.currentItem.Some? ==> position.Some? && position.value.item == cutter.currentItem.value
      ensures position.None? ==> lastPlaybackPosition.None? && inflightPosition.None?
    {
      position := EffectivePlaybackPosition(now);
      if cutter.currentItem.Some? && (position.None? || position.value.item != cutter.currentItem.value) {
        position := Some(Position(cutter.currentItem.value, 0));
      }
    }

    method RequestTruncate(step: nat, position: Option<Position>, reply: Reply) returns (failed: bool, next: nat)
      requires Cutting() && log.bargeSequence > 0 && step == log.Issue().step + 1
      modifies this`inflightPosition, this`inflightStartedAt, this`lastPlaybackPosition, this`pump, this`closed, this`closing
      modifies log`timeline, log`activePlayback, log`playbackSequence, log`writtenBytes, log`lastPlayedAt, log`written
      modifies log`lastFrameBytes, log`activeSpeech, cutter.playback`frames, cutter.playback`fates
      ensures Cutting() && OnlySteps(old(log.Issue()), log.Issue()) && Later(old(Now()), Now())
      ensures SpeechKept()
      ensures next == log.Issue().step + 1
      ensures failed <==> position.Some? && provider.canTruncate && reply == Raises
      ensures next == step + if position.Some? && provider.canTruncate && reply == Yes then 1 else 0
      ensures next > step ==>
        && |log.timeline| > 0
        && log.timeline[|log.timeline| - 1] == TimelineEvent(
             Ids.BargeStep(log.bargeSequence, step), "provider_truncate_requested", Truncated(position.value.audioEndMs))
    {
      LaterMeans(Now(), Now());
      failed, next := false, step;
      if position.Some? && provider.canTruncate {
        Await();
        failed := reply == Raises;
        if reply == Yes {
          ghost var past := Now();
          LogStep(step, "provider_truncate_requested", Truncated(position.value.audioEndMs));
          StillLater(old(Now()), past, Now());
          next := step + 1;
        }
      }
    }

    /** The provider is asked to interrupt, if the caller speaks, and to forget what was not heard. */
    method Negotiate(started: bool, interrupt: Reply, truncate: Reply)
        returns (failed: bool, step: nat, path: string, position: Option<Position>, ghost hearing: Hearing)
      requires Cutting() && log.bargeSequence > 0 && log.Issue().step == 1
      modifies this`inflightPosition, this`inflightStartedAt, this`lastPlaybackPosition, this`pump, this`closed, this`closing
      modifies log`timeline, log`activePlayback, log`playbackSequence, log`writtenBytes, log`lastPlayedAt, log`written
      modifies log`lastFrameBytes, log`activeSpeech, cutter.playback`frames, cutter.playback`fates
      ensures Cutting() && OnlySteps(old(log.Issue()), log.Issue()) && Later(old(Now()), Now())
      ensures SpeechKept()
      ensures step == log.Issue().step + 1
      ensures failed ==> interrupt == Raises || truncate == Raises
      ensures path == PathOf(provider, started, interrupt)
      ensures !failed ==> IsTold(position, cutter.currentItem, hearing)
      ensures !failed && !AwaitsInterrupt(started) ==>
        hearing.last == old(lastPlaybackPosition) && hearing.inflight == old(inflightPosition)
      ensures !failed ==> step == TruncateStep(path) + if AsksTruncate(position, truncate) then 1 else 0
      ensures !failed && path in {"provider-auto", "provider-request"} ==> Logged(InterruptEvent(path))
      ensures !failed && AsksTruncate(position, truncate) ==> Logged(TruncateEvent(path, position))
    {
      failed, step, path := Ask(started, interrupt);
      position, hearing := None, Hearing(None, None, 0);
      if !failed {
        ghost var past := Now();
        failed, step, position, hearing := Tell(step, path, truncate);
        StillLater(old(Now()), past, Now());
        if path in {"provider-auto", "provider-request"} { StillLogged(past, InterruptEvent(path)); }
      }
    }

    /** A caller who speaks makes the provider stop, if it can. */
    method Ask(started: bool, interrupt: Reply) returns (failed: bool, step: nat, path: string)
      requires Cutting() && log.bargeSequence > 0 && log.Issue().step == 1
      modifies this`inflightPosition, this`inflightStartedAt, this`lastPlaybackPosition, this`pump, this`closed, this`closing
      modifies log`timeline, log`activePlayback, log`playbackSequence, log`writtenBytes, log`lastPlayedAt, log`written
      modifies log`lastFrameBytes, log`activeSpeech, cutter.playback`frames, cutter.playback`fates
      ensures Cutting() && OnlySteps(old(log.Issue()), log.Issue()) && Later(old(Now()), Now())
      ensures SpeechKept() && step == log.Issue().step + 1 == TruncateStep(path)
      ensures failed ==> interrupt == Raises
      ensures path == PathOf(provider, started, interrupt)
      ensures !AwaitsInterrupt(started) ==>
        lastPlaybackPosition == old(lastPlaybackPosition) && inflightPosition == old(inflightPosition)
      ensures path in {"provider-auto", "provider-request"} ==> Logged(InterruptEvent(path))
    {
      LaterMeans(Now(), Now());
      failed, step, path := false, 2, "provider-interrupted";
      if started {
        failed, step, path := RequestInterrupt(interrupt);
      }
    }

    lemma IsConsuming()
      requires Producing()
      ensures Consuming()
    {
      assert Open(0);
    }

    /** The provider is told what was heard, so that it forgets the rest. */
    method Tell(step: nat, path: string, truncate: Reply)
        returns (failed: bool, next: nat, position: Option<Position>, ghost hearing: Hearing)
      requires Cutting() && log.bargeSequence > 0 && step == log.Issue().step + 1 == TruncateStep(path)
      modifies this`inflightPosition, this`inflightStartedAt, this`lastPlaybackPosition, this`pump, this`closed, this`closing
      modifies log`timeline, log`activePlayback, log`playbackSequence, log`writtenBytes, log`lastPlayedAt, log`written
      modifies log`lastFrameBytes, log`activeSpeech, cutter.playback`frames, cutter.playback`fates
      ensures Cutting() && OnlySteps(old(log.Issue()), log.Issue()) && Later(old(Now()), Now())
      ensures SpeechKept() && next == log.Issue().step + 1
      ensures failed ==> truncate == Raises
      ensures IsTold(position, cutter.currentItem, hearing)
      ensures hearing.last == old(lastPlaybackPosition) && hearing.inflight == old(inflightPosition)
      ensures next == step + if AsksTruncate(position, truncate) then 1 else 0
      ensures AsksTruncate(position, truncate) ==> Logged(TruncateEvent(path, position))
    {
      IsConsuming();
      var now: int := *;
      hearing := Hearing(lastPlaybackPosition, inflightPosition, now - inflightStartedAt);
      position := HeardPosition(now);
      failed, next := RequestTruncate(step, position, truncate);
    }

    /** Only a provider that does not stop by itself is asked to, and waited for. */
    predicate AwaitsInterrupt(started: bool) {
      started && !provider.autoInterrupts && provider.canInterrupt
    }

    predicate AsksTruncate(told: Option<Position>, truncate: Reply) {
      told.Some? && provider.canTruncate && truncate == Yes
    }

    /** The step after that of the announcement, and that of the interrupt if there was one. */
    function TruncateStep(path: string): nat {
      if path == "provider-auto" || path == "provider-request" then 3 else 2
    }

    ghost predicate Logged(event: TimelineEvent)
      reads log`timeline
    {
      event in log.timeline
    }

    ghost function InterruptEvent(path: string): TimelineEvent
      reads log`bargeSequence
    {
      TimelineEvent(Ids.BargeStep(log.bargeSequence, 2),
                    if path == "provider-auto" then "provider_auto_interrupt_confirmed" else "provider_interrupt_requested",
                    NoAttributes)
    }

    ghost function TruncateEvent(path: string, told: Option<Position>): TimelineEvent
      requires told.Some?
      reads log`bargeSequence
    {
      TimelineEvent(Ids.BargeStep(log.bargeSequence, TruncateStep(path)), "provider_truncate_requested",
                    Truncated(told.value.audioEndMs))
    }

    lemma StillLogged(past: Past, event: TimelineEvent)
      requires Later(past, Now()) && event in past.timeline
      ensures Logged(event)
    {
      LaterMeans(past, Now());
    }

    /** Everything up to the tear-down: the interruption is announced and the provider is asked to follow. */
    method Announce(eventType: string, interrupt: Reply, truncate: Reply)
        returns (failed: bool, step: nat, path: string, position: Option<Position>, ghost hearing: Hearing)
      requires Valid()
      modifies this`inflightPosition, this`inflightStartedAt, this`lastPlaybackPosition, this`pump, this`closed, this`closing
      modifies log`timeline, log`activePlayback, log`playbackSequence, log`writtenBytes, log`lastPlayedAt, log`written
      modifies log`lastFrameBytes, log`activeSpeech, cutter.playback`frames, cutter.playback`fates
      modifies log`bargeSequence
      ensures Valid() && log.bargeSequence == old(log.bargeSequence) + 1 && Later(old(Now()), Now())
      ensures log.Issue().chunk == 0 && log.Issue().frame == 0 && !log.Issue().partial && step == log.Issue().step + 1
      ensures log.playbackSequence >= old(log.playbackSequence)
      ensures failed ==> interrupt == Raises || truncate == Raises
      ensures path == InterruptPath(eventType, interrupt)
      ensures !failed ==> IsTold(position, cutter.currentItem, hearing)
      ensures !failed && !AwaitsInterrupt(eventType == "input_speech_started") ==>
        hearing.last == old(lastPlaybackPosition) && hearing.inflight == old(inflightPosition)
      ensures !failed ==> step == TruncateStep(path) + if AsksTruncate(position, truncate) then 1 else 0
      ensures !failed ==> AnnouncedAs(eventType, path, position, truncate)
      ensures old(closed) ==> closed
      ensures (closed && log.activeSpeech == None) || log.activeSpeech ==
        if eventType == "input_speech_started" then Some(log.bargeSequence) else old(log.activeSpeech)
    {
      BurstIsNumbered();
      var started := eventType == "input_speech_started";
      AnnounceStart("provider_" + eventType, started);
      assert Logged(StartEvent(eventType));
      ghost var past := Now();
      failed, step, path, position, hearing := Negotiate(started, interrupt, truncate);
      StillLater(old(Now()), past, Now());
      BurstsGo(old(Now()));
      StillLogged(past, StartEvent(eventType));
    }

    ghost function StartEvent(eventType: string): TimelineEvent
      reads log`bargeSequence
    {
      TimelineEvent(Ids.BargeStep(log.bargeSequence, 1), "provider_" + eventType, NoAttributes)
    }

    /** The interruption, and what was asked of the provider and done by it, are on the timeline. */
    ghost predicate AnnouncedAs(eventType: string, path: string, told: Option<Position>, truncate: Reply)
      reads log`timeline, log`bargeSequence
    {
      && Logged(StartEvent(eventType))
      && (path in {"provider-auto", "provider-request"} ==> Logged(InterruptEvent(path)))
      && (AsksTruncate(told, truncate) ==> Logged(TruncateEvent(path, told)))
    }

    lemma StillAnnounced(past: Past, eventType: string, path: string, told: Option<Position>, truncate: Reply)
      requires Later(past, Now()) && StartEvent(eventType) in past.timeline
      requires path in {"provider-auto", "provider-request"} ==> InterruptEvent(path) in past.timeline
      requires AsksTruncate(told, truncate) ==> TruncateEvent(path, told) in past.timeline
      ensures AnnouncedAs(eventType, path, told, truncate)
    {
      LaterMeans(past, Now());
    }

    function InterruptPath(eventType: string, interrupt: Reply): string {
      PathOf(provider, eventType == "input_speech_started", interrupt)
    }

    method AnnounceStart(name: string, started: bool)
      requires Valid()
      modifies log`timeline, log`bargeSequence, log`activeSpeech
      ensures Valid() && log.bargeSequence == old(log.bargeSequence) + 1 && Later(old(Now()), Now())
      ensures log.Issue().chunk == 0 && log.Issue().frame == 0 && !log.Issue().partial && log.Issue().step == 1
      ensures log.activeSpeech == if started then Some(log.bargeSequence) else old(log.activeSpeech)
      ensures Logged(TimelineEvent(Ids.BargeStep(log.bargeSequence, 1), name, NoAttributes))
    {
      assert Open(0);
      log.AnnounceBargeIn(name, started);
      LaterMeans(old(Now()), Now());
    }

    /** The open burst ends and everything buffered is forgotten, up to the frames still queued. */
    method ResetOutput()
      requires Cutting()
      modifies this`lastPlaybackPosition, this`inflightPosition
      modifies log`timeline, log`activePlayback, log`writtenBytes, log`lastPlayedAt
      modifies cutter`packetBuffer, cutter`packetSources, cutter`lastEnqueuedPosition, cutter`currentItem
      modifies cutter`outputResampler, cutter`epoch, cutter`bytes, cutter`byteOrigins, cutter`framed, cutter`epochStart
      ensures Cutting() && OnlyOthers(old(log.Issue()), log.Issue()) && Later(old(Now()), Now())
      ensures Forgotten() && lastPlaybackPosition == None && inflightPosition == None && log.activePlayback == None
      ensures log.timeline == old(log.timeline)
        + BurstEnd(old(log.activePlayback), BytesOf(log.written, log.playbackSequence), "barge_in")
    {
      EndPlayback();
      ForgetOutput();
    }

    method ForgetOutput()
      requires Cutting()
      modifies cutter`packetBuffer, cutter`packetSources, cutter`lastEnqueuedPosition, cutter`currentItem
      modifies cutter`outputResampler, cutter`epoch, cutter`bytes, cutter`byteOrigins, cutter`framed, cutter`epochStart
      ensures Cutting() && Forgotten()
    {
      assert Open(0);
      SinceMeans(cutter.epoch, cutter.byteOrigins, cutter.barrier, cutter.chunkOrdinal);
      cutter.Reset(None);
    }

    /** All that the producer carries is empty, and a new epoch starts after the frames put. */
    ghost predicate Forgotten()
      reads cutter`packetBuffer, cutter`packetSources, cutter`epoch, cutter`byteOrigins, cutter`outputResampler
      reads cutter`currentItem, cutter`epochStart, cutter.playback`history
    {
      && cutter.packetBuffer == [] && cutter.packetSources == [] && cutter.epoch == [] && cutter.byteOrigins == []
      && cutter.outputResampler == None && cutter.currentItem == None && cutter.epochStart == |cutter.playback.history|
    }

    method EndPlayback()
      requires Cutting()
      modifies this`lastPlaybackPosition, this`inflightPosition
      modifies log`timeline, log`activePlayback, log`writtenBytes, log`lastPlayedAt
      ensures Cutting() && OnlyOthers(old(log.Issue()), log.Issue()) && Later(old(Now()), Now())
      ensures lastPlaybackPosition == None && inflightPosition == None && log.activePlayback == None
      ensures log.timeline == old(log.timeline)
        + BurstEnd(old(log.activePlayback), BytesOf(log.written, log.playbackSequence), "barge_in")
    {
      assert Open(0);
      log.EndAssistantPlayback("barge_in");
      lastPlaybackPosition, inflightPosition := None, None;
      LaterMeans(old(Now()), Now());
    }

    method TakePartial() returns (partialBytes: nat, window: Option<Window>, ghost partial: seq<nat>)
      requires Cutting()
      ensures partialBytes == |cutter.packetBuffer| == |partial| && partial == Expand(cutter.packetSources)
      ensures Accounts(window, partial) && (window.Some? ==> window.value.chunks != [])
    {
      assert Open(0);
      partialBytes := |cutter.packetBuffer|;
      window := cutter.PartialWindow();
      AccountedMeans(cutter.packetBuffer, cutter.packetSources, cutter.framed + cutter.inHand, cutter.bytes,
                     cutter.byteOrigins);
      assert cutter.framed + cutter.inHand == cutter.framed;
      partial := cutter.byteOrigins[|cutter.framed|..];
    }

    /** The queued frames are taken out; from here on only later chunks are heard. */
    method DrainQueue() returns (dropped: seq<Frame>, ghost origins: seq<seq<nat>>)
      requires Cutting() && Forgotten()
      modifies this`inflightPosition, this`inflightStartedAt, this`lastPlaybackPosition, this`pump, this`closed, this`closing
      modifies log`timeline, log`activePlayback, log`playbackSequence, log`writtenBytes, log`lastPlayedAt, log`written
      modifies log`lastFrameBytes, log`activeSpeech, cutter.playback`frames, cutter.playback`fates
      modifies this`startedAtDrain, this`inTransit, cutter`barrier, cutter`drainedAt
      ensures Torn(dropped, origins) && OnlyOthers(old(log.Issue()), log.Issue()) && Later(old(Now()), Now())
      ensures SpeechKept()
    {
      Await();
      ghost var past := Now();
      dropped, origins := DrainNow();
      StillLater(old(Now()), past, Now());
    }

    method DrainNow() returns (dropped: seq<Frame>, ghost origins: seq<seq<nat>>)
      requires Cutting() && Forgotten()
      modifies this`startedAtDrain, this`inTransit, cutter`barrier, cutter`drainedAt
      modifies cutter.playback`frames, cutter.playback`fates
      ensures Torn(dropped, origins) && Later(old(Now()), Now())
    {
      assert Open(0);
      SinceMeans(cutter.epoch, cutter.byteOrigins, cutter.barrier, cutter.chunkOrdinal);
      dropped := DrainAll();
      origins := cutter.frameOrigins[|cutter.playback.history| - |dropped|..];
    }

    method DrainAll() returns (dropped: seq<Frame>)
      requires Consuming() && cutter.inHand == [] && cutter.epoch == [] && cutter.byteOrigins == []
      requires cutter.barrier <= cutter.chunkOrdinal
      modifies this`startedAtDrain, this`inTransit, cutter`barrier, cutter`drainedAt
      modifies cutter.playback`frames, cutter.playback`fates
      ensures Consuming() && cutter.Recent() && cutter.playback.frames == []
      ensures Later(old(Now()), Now())
      ensures cutter.drainedAt == |cutter.playback.history| == |cutter.frameOrigins| && DrainedNow()
      ensures |dropped| <= |cutter.playback.history|
      ensures dropped == cutter.playback.history[|cutter.playback.history| - |dropped|..]
      ensures Tally(cutter.playback.fates, Dropped) == Tally(old(cutter.playback.fates), Dropped) + |dropped|
    {
      dropped := DrainFrames();
      LaterMeans(old(Now()), Now());
    }

    method DrainFrames() returns (dropped: seq<Frame>)
      requires Consuming() && cutter.inHand == [] && cutter.epoch == [] && cutter.byteOrigins == []
      requires cutter.barrier <= cutter.chunkOrdinal
      modifies this`startedAtDrain, this`inTransit, cutter`barrier, cutter`drainedAt
      modifies cutter.playback`frames, cutter.playback`fates
      ensures Consuming() && cutter.Recent() && cutter.playback.frames == []
      ensures old(cutter.playback.fates) <= cutter.playback.fates
      ensures cutter.drainedAt == |cutter.playback.history| == |cutter.frameOrigins| && DrainedNow()
      ensures |dropped| <= |cutter.playback.history|
      ensures dropped == cutter.playback.history[|cutter.playback.history| - |dropped|..]
      ensures Tally(cutter.playback.fates, Dropped) == Tally(old(cutter.playback.fates), Dropped) + |dropped|
    {
      assert Open(0);
      ghost var fates, drainedAt := cutter.playback.fates, cutter.drainedAt;
      dropped := cutter.Drain();
      StillPlayed(cutter.playback.history, fates);
      HandedDrain(log.written, InWriting(), fates, cutter.playback.fates, startedAtDrain, inTransit, drainedAt,
                  cutter.drainedAt);
      startedAtDrain, inTransit := |log.written|, InWriting();
    }

    /** Torn down: nothing is queued, and all that is missing is the count of the frames taken out. */
    ghost predicate Torn(dropped: seq<Frame>, origins: seq<seq<nat>>)
      reads this, cutter.playback, cutter, log
    {
      forall n: nat {:trigger Open(n)} :: Open(n) ==> IsTorn(dropped, origins)
    }

    ghost predicate IsTorn(dropped: seq<Frame>, origins: seq<seq<nat>>)
      reads this, cutter.playback, cutter, log
    {
      && Consuming() && cutter.Buffered() && cutter.Recent() && cutter.Numbered() && cutter.Rendering()
      && cutter.inHand == [] && startedAtDrain == |log.written| && inTransit == InWriting()
      && cutter.outputFramesDropped + |dropped| == Tally(cutter.playback.fates, Dropped)
      && cutter.barrier == cutter.chunkOrdinal && cutter.drainedAt == |cutter.playback.history|
      && NothingLeft()
      && |dropped| <= |cutter.playback.history| && |cutter.frameOrigins| == |cutter.playback.history|
      && dropped == cutter.playback.history[|cutter.playback.history| - |dropped|..]
      && origins == cutter.frameOrigins[|cutter.playback.history| - |dropped|..]
    }

    lemma DroppedAreWhole(dropped: seq<Frame>, origins: seq<seq<nat>>)
      requires Torn(dropped, origins)
      ensures |origins| == |dropped| && FramesRise(dropped, 0) && TotalBytes(dropped) == |dropped| * cutter.packetBytes
      ensures forall i :: 0 <= i < |dropped| ==> FrameOk(dropped[i], origins[i], cutter.packetBytes)
    {
      assert Open(0);
      var k := |cutter.playback.history| - |dropped|;
      forall i | 0 <= i < |dropped|
        ensures FrameOk(dropped[i], origins[i], cutter.packetBytes) && dropped[i].ordinal == k + i + 1
        ensures dropped[i].window.chunks != []
      {
        cutter.FrameAt(k + i);
        assert origins[i][0] in dropped[i].window.chunks;
      }
      TotalOfWhole(dropped, cutter.packetBytes);
    }

    /** The evidence of what was discarded and the two last steps. */
    method LogBargeIn(step: nat, path: string, position: Option<Position>, controlAt: int, dropped: seq<Frame>,
                      ghost origins: seq<seq<nat>>, partialBytes: nat, window: Option<Window>)
      requires Torn(dropped, origins) && cutter.Recalled() && log.bargeSequence > 0 && step == log.Issue().step + 1
      requires log.Issue().chunk == 0 && log.Issue().frame == 0 && !log.Issue().partial
      requires window.Some? ==> window.value.chunks != []
      modifies log`timeline
      ensures log.Valid() && old(log.timeline) <= log.timeline
      ensures Reported(step, path, PlayedMs(position), dropped, window, partialBytes)
    {
      assert Open(0);
      DroppedAreWhole(dropped, origins);
      SampledFramesRise(dropped, 0);
      RisingMeans(cutter.recentChunks, cutter.chunkOrdinal);
      log.ReportBargeIn(step, path, PlayedMs(position), controlAt, cutter.recentChunks, dropped, partialBytes, window);
    }

    /** The metric then counts what was taken out of the queue. */
    method CountDropped(dropped: seq<Frame>, ghost origins: seq<seq<nat>>)
      requires Torn(dropped, origins)
      modifies cutter`outputFramesDropped
      ensures Cutting() && cutter.outputFramesDropped == old(cutter.outputFramesDropped) + |dropped|
      ensures DrainedNow() && NothingLeft()
    {
      assert Open(0);
      cutter.CountDropped(|dropped|);
    }

    method TearDown() returns (dropped: seq<Frame>, ghost origins: seq<seq<nat>>)
      requires Cutting()
      modifies this`inflightPosition, this`inflightStartedAt, this`lastPlaybackPosition, this`pump, this`closed, this`closing
      modifies log`timeline, log`activePlayback, log`playbackSequence, log`writtenBytes, log`lastPlayedAt, log`written
      modifies log`lastFrameBytes, log`activeSpeech, cutter.playback`frames, cutter.playback`fates
      modifies cutter`packetBuffer, cutter`packetSources, cutter`lastEnqueuedPosition, cutter`currentItem
      modifies cutter`outputResampler, cutter`epoch, cutter`bytes, cutter`byteOrigins, cutter`framed, cutter`epochStart
      modifies this`startedAtDrain, this`inTransit, cutter`barrier, cutter`drainedAt
      ensures Torn(dropped, origins) && OnlyOthers(old(log.Issue()), log.Issue()) && Later(old(Now()), Now())
      ensures SpeechKept() && BurstEnded(old(log.playbackSequence))
    {
      ResetOutput();
      ghost var past := Now();
      BurstIsNumbered();
      dropped, origins := DrainQueue();
      StillLater(old(Now()), past, Now());
      LaterMeans(past, Now());
      LaterBursts(past.timeline, dropped, origins);
    }

    /** The burst of that number, and all before it, are over. */
    ghost predicate BurstEnded(burst: nat)
      reads log`activePlayback
    {
      log.activePlayback.Some? ==> log.activePlayback.value > burst
    }

    /** Burst numbers have not gone back since the timeline was as given. */
    lemma BurstsGo(past: Past)
      requires Producing() && Later(past, Now())
      ensures log.playbackSequence >= Ids.Issued(IdsOf(past.timeline)).playback
    {
      LaterMeans(past, Now());
      BurstIsNumbered();
      assert Open(0);
      assert Expose(0);
      Ids.BurstsGrow(IdsOf(past.timeline), IdsOf(log.timeline));
    }

    lemma BurstIsNumbered()
      requires Producing()
      ensures log.playbackSequence == log.Issue().playback && log.activePlayback.Some? == log.Issue().open
    {
      assert Open(0);
      assert Expose(0);
    }

    /** A burst that is open although none was when the output path was reset has been opened since. */
    lemma LaterBursts(before: seq<TimelineEvent>, dropped: seq<Frame>, origins: seq<seq<nat>>)
      requires Torn(dropped, origins) && before <= log.timeline && !Ids.Issued(IdsOf(before)).open
      ensures BurstEnded(Ids.Issued(IdsOf(before)).playback)
    {
      assert Open(0);
      assert Expose(0);
      Ids.BurstsGrow(IdsOf(before), IdsOf(log.timeline));
    }

    lemma DiscardedKnown(dropped: seq<Frame>, origins: seq<seq<nat>>, window: Option<Window>, partial: seq<nat>)
      requires Torn(dropped, origins)
      requires Accounts(window, partial)
      ensures Discarded(dropped, window, partial)
    {
      assert Open(0);
      DroppedAreWhole(dropped, origins);
      DiscardedAreLast(cutter.playback.history, cutter.frameOrigins, dropped, origins, window, partial, cutter.packetBytes);
    }

    /** The report changes nothing but the timeline. */
    method Report(step: nat, path: string, position: Option<Position>, controlAt: int, dropped: seq<Frame>,
                  ghost origins: seq<seq<nat>>, partialBytes: nat, window: Option<Window>)
      requires Torn(dropped, origins) && cutter.Recalled() && log.bargeSequence > 0 && step == log.Issue().step + 1
      requires log.Issue().chunk == 0 && log.Issue().frame == 0 && !log.Issue().partial
      requires window.Some? ==> window.value.chunks != []
      modifies log`timeline
      ensures Torn(dropped, origins) && Later(old(Now()), Now())
      ensures Reported(step, path, PlayedMs(position), dropped, window, partialBytes)
    {
      assert Open(0);
      LogBargeIn(step, path, position, controlAt, dropped, origins, partialBytes, window);
      LaterMeans(old(Now()), Now());
    }

    method Settle(step: nat, path: string, position: Option<Position>, controlAt: int, dropped: seq<Frame>,
                  ghost origins: seq<seq<nat>>, partialBytes: nat, window: Option<Window>, ghost partial: seq<nat>)
      requires Torn(dropped, origins) && cutter.Recalled() && log.bargeSequence > 0 && step == log.Issue().step + 1
      requires log.Issue().chunk == 0 && log.Issue().frame == 0 && !log.Issue().partial
      requires Accounts(window, partial) && (window.Some? ==> window.value.chunks != [])
      modifies log`timeline, cutter`outputFramesDropped
      ensures Valid() && Reported(step, path, PlayedMs(position), dropped, window, partialBytes)
      ensures Later(old(Now()), Now()) && DrainedNow() && NothingLeft() && Discarded(dropped, window, partial)
      ensures cutter.outputFramesDropped == old(cutter.outputFramesDropped) + |dropped|
    {
      Report(step, path, position, controlAt, dropped, origins, partialBytes, window);
      DiscardedKnown(dropped, origins, window, partial);
      CountDropped(dropped, origins);
    }

    /** The queue was drained just now: the chunks so far are behind the barrier, and one frame may be on its way. */
    ghost predicate DrainedNow()
      reads this`startedAtDrain, this`inTransit, this`pump, log`written, cutter`barrier, cutter`chunkOrdinal
    {
      cutter.barrier == cutter.chunkOrdinal && startedAtDrain == |log.written| && inTransit == InWriting()
    }

    /** The partial frame is looked at, then the output path is torn down. */
    method Discard() returns (partialBytes: nat, dropped: seq<Frame>, window: Option<Window>, ghost origins: seq<seq<nat>>,
                              ghost partial: seq<nat>)
      requires Cutting()
      modifies this`inflightPosition, this`inflightStartedAt, this`lastPlaybackPosition, this`pump, this`closed, this`closing
      modifies log`timeline, log`activePlayback, log`playbackSequence, log`writtenBytes, log`lastPlayedAt, log`written
      modifies log`lastFrameBytes, log`activeSpeech, cutter.playback`frames, cutter.playback`fates
      modifies cutter`packetBuffer, cutter`packetSources, cutter`lastEnqueuedPosition, cutter`currentItem
      modifies cutter`outputResampler, cutter`epoch, cutter`bytes, cutter`byteOrigins, cutter`framed, cutter`epochStart
      modifies this`startedAtDrain, this`inTransit, cutter`barrier, cutter`drainedAt
      ensures Torn(dropped, origins) && OnlyOthers(old(log.Issue()), log.Issue()) && Later(old(Now()), Now())
      ensures partialBytes == |partial| == |old(cutter.packetBuffer)| && partial == Expand(old(cutter.packetSources))
      ensures Accounts(window, partial) && (window.Some? ==> window.value.chunks != [])
      ensures SpeechKept() && BurstEnded(old(log.playbackSequence))
    {
      partialBytes, window, partial := TakePartial();
      dropped, origins := TearDown();
    }

    method Conclude(step: nat, path: string, position: Option<Position>, controlAt: int)
        returns (dropped: seq<Frame>, window: Option<Window>, ghost partial: seq<nat>)
      requires Valid() && log.bargeSequence > 0 && step == log.Issue().step + 1
      requires log.Issue().chunk == 0 && log.Issue().frame == 0 && !log.Issue().partial
      modifies this`inflightPosition, this`inflightStartedAt, this`lastPlaybackPosition, this`pump, this`closed, this`closing
      modifies log`timeline, log`activePlayback, log`playbackSequence, log`writtenBytes, log`lastPlayedAt, log`written
      modifies log`lastFrameBytes, log`activeSpeech, cutter.playback`frames, cutter.playback`fates
      modifies cutter`packetBuffer, cutter`packetSources, cutter`lastEnqueuedPosition, cutter`currentItem
      modifies cutter`outputResampler, cutter`epoch, cutter`bytes, cutter`byteOrigins, cutter`framed, cutter`epochStart
      modifies this`startedAtDrain, this`inTransit, cutter`barrier, cutter`drainedAt, cutter`outputFramesDropped
      ensures Valid() && DrainedNow() && NothingLeft() && Later(old(Now()), Now())
      ensures Discarded(dropped, window, partial)
      ensures |partial| == |old(cutter.packetBuffer)| && partial == Expand(old(cutter.packetSources))
      ensures cutter.outputFramesDropped == old(cutter.outputFramesDropped) + |dropped|
      ensures Reported(step, path, PlayedMs(position), dropped, window, |partial|)
      ensures SpeechKept() && BurstEnded(old(log.playbackSequence))
    {
      var partialBytes;
      ghost var origins;
      partialBytes, dropped, window, origins, partial := Discard();
      assert cutter.outputFramesDropped == old(cutter.outputFramesDropped);
      ghost var past := Now();
      Settle(step, path, position, controlAt, dropped, origins, partialBytes, window, partial);
      StillLater(old(Now()), past, Now());
    }

    /** What was announced stays on the timeline, and the last step completes it. */
    method ConcludeAsAnnounced(step: nat, ghost eventType: string, path: string, told: Option<Position>,
                               ghost truncate: Reply, controlAt: int)
        returns (dropped: seq<Frame>, window: Option<Window>, ghost partial: seq<nat>)
      requires Valid() && log.bargeSequence > 0 && step == log.Issue().step + 1 == LastStep(path, told, truncate)
      requires log.Issue().chunk == 0 && log.Issue().frame == 0 && !log.Issue().partial
      requires AnnouncedAs(eventType, path, told, truncate)
      modifies this`inflightPosition, this`inflightStartedAt, this`lastPlaybackPosition, this`pump, this`closed, this`closing
      modifies log`timeline, log`activePlayback, log`playbackSequence, log`writtenBytes, log`lastPlayedAt, log`written
      modifies log`lastFrameBytes, log`activeSpeech, cutter.playback`frames, cutter.playback`fates
      modifies cutter`packetBuffer, cutter`packetSources, cutter`lastEnqueuedPosition, cutter`currentItem
      modifies cutter`outputResampler, cutter`epoch, cutter`bytes, cutter`byteOrigins, cutter`framed, cutter`epochStart
      modifies this`startedAtDrain, this`inTransit, cutter`barrier, cutter`drainedAt, cutter`outputFramesDropped
      ensures Valid() && DrainedNow() && NothingLeft() && Later(old(Now()), Now())
      ensures Discarded(dropped, window, partial)
      ensures |partial| == |old(cutter.packetBuffer)| && partial == Expand(old(cutter.packetSources))
      ensures cutter.outputFramesDropped == old(cutter.outputFramesDropped) + |dropped|
      ensures AnnouncedAs(eventType, path, told, truncate) && CompletedAs(path, told, truncate, |dropped|)
      ensures Reported(step, path, PlayedMs(told), dropped, window, |partial|) && SpeechKept() && BurstEnded(old(log.playbackSequence))
    {
      ghost var past := Now();
      dropped, window, partial := Conclude(step, path, told, controlAt);
      StillAnnounced(past, eventType, path, told, truncate);
      ReportCompletes(step, path, told, dropped, window, |partial|);
    }

    /**
      An interruption.  Unless the provider raises, nothing received before it is left anywhere: not in the
      packet buffer, not in the resampler, not in the queue; every frame that comes out of the queue from now on
      is held against the barrier set here, and only the frame being written is still on its way.
     */
    method BargeIn(eventType: string, controlAt: int, interrupt: Reply, truncate: Reply)
        returns (failed: bool, dropped: seq<Frame>, window: Option<Window>, told: Option<Position>,
                 ghost partial: seq<nat>, ghost hearing: Hearing)
      requires Valid()
      modifies this`inflightPosition, this`inflightStartedAt, this`lastPlaybackPosition, this`pump, this`closed, this`closing
      modifies log`timeline, log`activePlayback, log`playbackSequence, log`writtenBytes, log`lastPlayedAt, log`written
      modifies log`lastFrameBytes, log`activeSpeech, cutter.playback`frames, cutter.playback`fates
      modifies log`bargeSequence
      modifies cutter`packetBuffer, cutter`packetSources, cutter`lastEnqueuedPosition, cutter`currentItem
      modifies cutter`outputResampler, cutter`epoch, cutter`bytes, cutter`byteOrigins, cutter`framed, cutter`epochStart
      modifies this`startedAtDrain, this`inTransit, cutter`barrier, cutter`drainedAt, cutter`outputFramesDropped
      ensures Valid() && Later(old(Now()), Now()) && log.bargeSequence == old(log.bargeSequence) + 1
      ensures failed ==> cutter.barrier == old(cutter.barrier) && (interrupt == Raises || truncate == Raises)
      ensures !failed ==> DrainedNow() && NothingLeft() && Discarded(dropped, window, partial)
      ensures !failed ==> |partial| == |old(cutter.packetBuffer)| && partial == Expand(old(cutter.packetSources))
      ensures failed ==> cutter.packetBuffer == old(cutter.packetBuffer)
      ensures cutter.outputFramesDropped == old(cutter.outputFramesDropped) + |dropped|
      ensures !failed ==> BurstEnded(old(log.playbackSequence))
      ensures !failed ==> IsTold(told, old(cutter.currentItem), hearing)
      ensures !failed && !AwaitsInterrupt(eventType == "input_speech_started") ==>
        hearing.last == old(lastPlaybackPosition) && hearing.inflight == old(inflightPosition)
      ensures !failed ==> AnnouncedAs(eventType, InterruptPath(eventType, interrupt), told, truncate)
      ensures !failed ==> CompletedAs(InterruptPath(eventType, interrupt), told, truncate, |dropped|)
      ensures !failed ==>
        Reported(LastStep(InterruptPath(eventType, interrupt), told, truncate), InterruptPath(eventType, interrupt),
                 PlayedMs(told), dropped, window, |partial|)
      ensures old(closed) ==> closed
      ensures (closed && log.activeSpeech == None) || log.activeSpeech ==
        if eventType == "input_speech_started" then Some(log.bargeSequence) else old(log.activeSpeech)
    {
      var step, path;
      failed, step, path, told, hearing := Announce(eventType, interrupt, truncate);
      dropped, window, partial := [], None, [];
      assert cutter.outputFramesDropped == old(cutter.outputFramesDropped) && (old(closed) ==> closed);
      if !failed {
        ghost var past := Now();
        dropped, window, partial := ConcludeAsAnnounced(step, eventType, path, told, truncate, controlAt);
        StillLater(old(Now()), past, Now());
      }
    }

    /** The number of the step that reports the cleared queue; the interruption is complete with the next. */
    function LastStep(path: string, told: Option<Position>, truncate: Reply): nat {
      TruncateStep(path) + if AsksTruncate(told, truncate) then 1 else 0
    }

    /** The last step tells how the provider stopped, what it was told was heard and how many frames were dropped. */
    ghost predicate CompletedAs(path: string, told: Option<Position>, truncate: Reply, droppedFrames: nat)
      reads log`timeline, log`bargeSequence
    {
      var playedMs := if told.Some? then Some(told.value.audioEndMs) else None;
      Logged(TimelineEvent(Ids.BargeStep(log.bargeSequence, LastStep(path, told, truncate) + 1), "barge_in_completed",
                           Completed(path, playedMs, droppedFrames)))
    }

    lemma ReportCompletes(step: nat, path: string, told: Option<Position>, dropped: seq<Frame>, window: Option<Window>,
                          partialBytes: nat)
      requires Reported(step, path, PlayedMs(told), dropped, window, partialBytes)
      ensures var playedMs := if told.Some? then Some(told.value.audioEndMs) else None;
              Logged(TimelineEvent(Ids.BargeStep(log.bargeSequence, step + 1), "barge_in_completed",
                                   Completed(path, playedMs, |dropped|)))
    {
      assert Expose(0);
      var n := |log.timeline|;
      assert log.timeline[n - 1] == log.timeline[n - 2..][1];
    }

    // ---------------------------------------------------------------- the producer's loop

    /** An interruption does all that it promises, or makes the producer fail. */
    method Interrupt(event: Message) returns (error: Option<string>)
      requires event.ProviderEvent? && event.eventType in INTERRUPTIONS && Valid()
      modifies this`inflightPosition, this`inflightStartedAt, this`lastPlaybackPosition, this`pump, this`closed, this`closing
      modifies log`timeline, log`activePlayback, log`playbackSequence, log`writtenBytes, log`lastPlayedAt, log`written
      modifies log`lastFrameBytes, log`activeSpeech, cutter.playback`frames, cutter.playback`fates
      modifies log`bargeSequence
      modifies cutter`packetBuffer, cutter`packetSources, cutter`lastEnqueuedPosition, cutter`currentItem
      modifies cutter`outputResampler, cutter`epoch, cutter`bytes, cutter`byteOrigins, cutter`framed, cutter`epochStart
      modifies this`startedAtDrain, this`inTransit, cutter`barrier, cutter`drainedAt, cutter`outputFramesDropped
      ensures Valid() && Later(old(Now()), Now())
      ensures error.None? ==> InputNow() == Feed(old(InputNow()), event)
      ensures Harmless(event) ==> error == None
      ensures error.Some? ==> error == Some("provider session failed")
      ensures old(Trimmed()) ==> Trimmed()
      ensures error.None? ==>
        && DrainedNow() && NothingLeft() && log.bargeSequence == old(log.bargeSequence) + 1
        && Logged(StartEvent(event.eventType))
    {
      var failed, dropped, window, told;
      ghost var partial, hearing;
      failed, dropped, window, told, partial, hearing := BargeIn(event.eventType, event.at, event.interrupt, event.truncate);
      error := if failed then Some("provider session failed") else None;
    }

    /** A provider event: the end of the caller's speech, an interruption, or nothing to act on. */
    method HandleEvent(event: Message) returns (error: Option<string>)
      requires event.ProviderEvent? && Valid()
      modifies this`inflightPosition, this`inflightStartedAt, this`lastPlaybackPosition, this`pump, this`closed, this`closing
      modifies log`timeline, log`activePlayback, log`playbackSequence, log`writtenBytes, log`lastPlayedAt, log`written
      modifies log`lastFrameBytes, log`activeSpeech, cutter.playback`frames, cutter.playback`fates
      modifies log`bargeSequence
      modifies cutter`packetBuffer, cutter`packetSources, cutter`lastEnqueuedPosition, cutter`currentItem
      modifies cutter`outputResampler, cutter`epoch, cutter`bytes, cutter`byteOrigins, cutter`framed, cutter`epochStart
      modifies this`startedAtDrain, this`inTransit, cutter`barrier, cutter`drainedAt, cutter`outputFramesDropped
      ensures Valid() && Later(old(Now()), Now())
      ensures error.None? ==> InputNow() == Feed(old(InputNow()), event)
      ensures error.None? ==> StartsRightly(old(InputNow()), event, old(cutter.epochStart), |cutter.playback.history|)
      ensures Harmless(event) ==> error == None
      ensures error.Some? ==> error == Some("provider session failed")
      ensures old(Trimmed()) ==> Trimmed()
      ensures event.eventType == "input_speech_stopped" ==>
        && error == None && log.activeSpeech == None
        && log.timeline == old(log.timeline) + SpeechEnd(old(log.activeSpeech), true, "provider_speech_stopped")
      ensures (event.eventType == "input_speech_started" || event.eventType == "interrupted") && error.None? ==>
        && DrainedNow() && NothingLeft() && log.bargeSequence == old(log.bargeSequence) + 1
        && Logged(StartEvent(event.eventType))
      ensures event.eventType !in {"input_speech_stopped", "input_speech_started", "interrupted"} ==>
        error == None && log.timeline == old(log.timeline)
    {
      error := None;
      LaterMeans(Now(), Now());
      if event.eventType == "input_speech_stopped" {
        EndCallerSpeech(true, "provider_speech_stopped");
      } else if event.eventType in INTERRUPTIONS {
        error := Interrupt(event);
      }
    }

    method EndCallerSpeech(completionObserved: bool, reason: string)
      requires Valid()
      modifies log`timeline, log`activeSpeech
      ensures Valid() && log.activeSpeech == None && Later(old(Now()), Now())
      ensures log.timeline == old(log.timeline) + SpeechEnd(old(log.activeSpeech), completionObserved, reason)
    {
      assert Open(0);
      log.EndCallerSpeech(completionObserved, reason);
      LaterMeans(old(Now()), Now());
    }

    /** The frames put before the current epoch. */
    ghost function EarlierNow(): seq<FramePlan>
      reads cutter`epochStart, cutter`frameOrigins, cutter.playback`history
    {
      EarlierOf(cutter.playback.history, cutter.frameOrigins, cutter.epochStart)
    }

    /** With no whole frame left uncut, the frames put since the start of the epoch are its plan. */
    lemma AllPut()
      requires Valid() && Trimmed()
      ensures cutter.epochStart <= |cutter.playback.history| == |cutter.frameOrigins|
      ensures PlanOf(cutter.playback.history, cutter.frameOrigins) == EarlierNow() + EpochPlan(Path(), InputNow())
    {
      FramesRenderTheEpoch();
      EpochIsPlanned();
      PlanSplits(cutter.playback.history, cutter.frameOrigins, cutter.epochStart);
    }

    lemma EpochIsPlanned()
      requires Valid() && Trimmed()
      ensures cutter.epochStart <= |cutter.playback.history| == |cutter.frameOrigins|
      ensures PlanOf(cutter.playback.history[cutter.epochStart..], cutter.frameOrigins[cutter.epochStart..])
           == EpochPlan(Path(), InputNow())
    {
      EpochBytes();
      IsConsuming();
      EpochFrames();
      PlanIsEpoch(Path(), InputNow(), cutter.playback.history[cutter.epochStart..],
                  cutter.frameOrigins[cutter.epochStart..], cutter.packetBuffer, Expand(cutter.packetSources));
    }

    /** With nothing in hand, the frames of the epoch and the packet buffer are what it renders to. */
    lemma EpochBytes()
      requires Cutting()
      ensures cutter.epochStart <= |cutter.playback.history| == |cutter.frameOrigins|
      ensures Rendered(cutter.epoch, cutter.telephonyRate, cutter.shape)
           == Flatten(Payloads(cutter.playback.history[cutter.epochStart..])) + cutter.packetBuffer
      ensures Origins(cutter.epoch, cutter.telephonyRate, cutter.shape)
           == Flatten(cutter.frameOrigins[cutter.epochStart..]) + Expand(cutter.packetSources)
    {
      FramesRenderTheEpoch();
      NothingInHand(Flatten(Payloads(cutter.playback.history[cutter.epochStart..])), cutter.inHand);
      NothingInHand(Flatten(cutter.frameOrigins[cutter.epochStart..]),
                    cutter.byteOrigins[|cutter.framed|..|cutter.framed| + |cutter.inHand|]);
    }

    lemma EpochFrames()
      requires Consuming()
      ensures cutter.epochStart <= |cutter.playback.history| == |cutter.frameOrigins|
      ensures cutter.packetBytes == 0 ==> cutter.playback.history == []
      ensures var frames, origins := cutter.playback.history[cutter.epochStart..], cutter.frameOrigins[cutter.epochStart..];
              forall i :: 0 <= i < |frames| ==>
                |frames[i].payload| == |origins[i]| == cutter.packetBytes
                && frames[i].position == PositionOf(cutter.currentItem, 1 + i)
    {
      assert Open(0);
      EpochFramesAreWhole(cutter.playback.history, cutter.frameOrigins, cutter.epochStart, cutter.framed,
                          cutter.byteOrigins[..|cutter.framed|], cutter.currentItem, cutter.packetBytes);
    }

    /** A message is acted upon. */
    method Act(message: Message) returns (error: Option<string>)
      requires Valid()
      modifies this, log, cutter, cutter.playback`frames, cutter.playback`fates, cutter.playback`history
      ensures Valid() && Later(old(Now()), Now())
      ensures error.None? ==> InputNow() == Feed(old(InputNow()), message)
      ensures error.None? ==> StartsRightly(old(InputNow()), message, old(cutter.epochStart), |old(cutter.playback.history)|)
      ensures Harmless(message) && cutter.packetBytes > 0 ==> error == None
      ensures message.ProviderAudio? && !Usable(message) ==> error.Some?
      ensures old(Trimmed()) ==> Trimmed()
    {
      if message.ProviderEvent? {
        error := HandleEvent(message);
      } else {
        error := ProcessAudio(message);
      }
    }

    /**
      The next message arrives, and is acted upon.  Unless it makes the producer fail, the frames of the epochs
      that are over are those of before, followed by those of the epoch that the message ends, if it ends one.
     */
    method HandleMessage(message: Message) returns (error: Option<string>)
      requires Valid()
      modifies this, log, cutter, cutter.playback`frames, cutter.playback`fates, cutter.playback`history
      ensures Valid() && Later(old(Now()), Now())
      ensures error.None? ==> InputNow() == Feed(old(InputNow()), message)
      ensures error.None? ==> StartsRightly(old(InputNow()), message, old(cutter.epochStart), |old(cutter.playback.history)|)
      ensures error.None? && old(Trimmed()) ==>
        EarlierNow() == EarlierAfter(Path(), old(InputNow()), old(EarlierNow()), message)
      ensures Harmless(message) && cutter.packetBytes > 0 ==> error == None
      ensures message.ProviderAudio? && !Usable(message) ==> error.Some?
      ensures old(Trimmed()) ==> Trimmed()
    {
      Await();
      ghost var past, start := Now(), cutter.epochStart;
      StartIsWithin();
      if Trimmed() { AllPut(); }
      error := Act(message);
      StillLater(old(Now()), past, Now());
      StartIsWithin();
      EarlierIs(past, Now(), start, cutter.epochStart);
    }

    lemma StartIsWithin()
      requires Producing()
      ensures cutter.epochStart <= |cutter.playback.history| == |cutter.frameOrigins|
    {
      FramesRenderTheEpoch();
    }

    /**
      The whole life of the producer: whatever messages come and whatever the others do meanwhile, all that the
      session promises holds throughout, nothing that has happened is taken back, and in the end the queue is
      closed.  If no message makes it fail, what it carries is what all the messages amount to, and the frames it has
      put are exactly the frames they amount to, in bytes, chunks and positions.
     */
    method ProduceProviderAudio(messages: seq<Message>) returns (ending: Ending)
      requires Valid()
      modifies this, log, cutter, cutter.playback
      ensures Valid() && cutter.playback.closed && Later(old(Now()), Now())
      ensures old(Trimmed()) ==> Trimmed()
      ensures !ending.Failed? ==> InputNow() == FeedAll(old(InputNow()), messages)
      ensures |cutter.frameOrigins| == |cutter.playback.history|
      ensures !ending.Failed? && old(Trimmed()) ==>
        PlanOf(cutter.playback.history, cutter.frameOrigins)
        == PlanAll(Path(), old(InputNow()), old(EarlierNow()), messages)
      ensures !ending.Failed? ==> ending == if provider.persistent then EndedTooSoon else Ended
      ensures (forall message :: message in messages ==> Harmless(message)) && cutter.packetBytes > 0 ==> !ending.Failed?
      ensures (exists message :: message in messages && message.ProviderAudio? && !Usable(message)) ==> ending.Failed?
    {
      LaterMeans(Now(), Now());
      ending := HandleAll(messages);
      StartIsWithin();
      if Trimmed() { AllPut(); }
      ghost var past := Now();
      CloseQueue();
      StillLater(old(Now()), past, Now());
    }

    /** The loop over the messages, up to the first that makes the producer fail. */
    method HandleAll(messages: seq<Message>) returns (ending: Ending)
      requires Valid()
      modifies this, log, cutter, cutter.playback`frames, cutter.playback`fates, cutter.playback`history
      ensures Valid() && Later(old(Now()), Now())
      ensures old(Trimmed()) ==> Trimmed()
      ensures !ending.Failed? ==> InputNow() == FeedAll(old(InputNow()), messages)
      ensures !ending.Failed? && old(Trimmed()) ==>
        EarlierNow() == Earlier(Path(), old(InputNow()), old(EarlierNow()), messages)
      ensures !ending.Failed? ==> ending == if provider.persistent then EndedTooSoon else Ended
      ensures (forall message :: message in messages ==> Harmless(message)) && cutter.packetBytes > 0 ==> !ending.Failed?
      ensures (exists message :: message in messages && message.ProviderAudio? && !Usable(message)) ==> ending.Failed?
    {
      LaterMeans(Now(), Now());
      ending := if provider.persistent then EndedTooSoon else Ended;
      for i := 0 to |messages|
        invariant Valid() && Later(old(Now()), Now()) && (old(Trimmed()) ==> Trimmed())
        invariant InputNow() == FeedAll(old(InputNow()), messages[..i])
        invariant old(Trimmed()) ==> EarlierNow() == Earlier(Path(), old(InputNow()), old(EarlierNow()), messages[..i])
        invariant forall j :: 0 <= j < i && messages[j].ProviderAudio? ==> Usable(messages[j])
      {
        ghost var past := Now();
        var error := HandleMessage(messages[i]);
        StillLater(old(Now()), past, Now());
        FeedNext(old(InputNow()), messages, i);
        EarlierNext(Path(), old(InputNow()), old(EarlierNow()), messages, i);
        if error.Some? {
          return Failed(error.value);
        }
      }
      assert messages[..|messages|] == messages;
    }

    method CloseQueue()
      requires Valid()
      modifies this`inflightPosition, this`inflightStartedAt, this`lastPlaybackPosition, this`pump, this`closed, this`closing
      modifies log`timeline, log`activePlayback, log`playbackSequence, log`writtenBytes, log`lastPlayedAt, log`written
      modifies log`lastFrameBytes, log`activeSpeech, cutter.playback`frames, cutter.playback`fates
      modifies cutter.playback`closed
      ensures Valid() && cutter.playback.closed && Later(old(Now()), Now())
    {
      Await();
      assert Open(0);
      cutter.playback.Close();
    }

    // ---------------------------------------------------------------- what every reachable state promises

    /** Frames put are frames delivered, frames the metric counts as dropped, and frames queued; in order. */
    lemma FramesAreConserved()
      requires cutter.Fenced() && cutter.Metered()
      ensures |cutter.playback.history|
           == Tally(cutter.playback.fates, Delivered) + cutter.outputFramesDropped + |cutter.playback.frames|
      ensures |cutter.playback.frames| <= 250
      ensures Increasing(Places(cutter.playback.fates, Delivered))
      ensures forall i :: 0 <= i < |Places(cutter.playback.fates, Delivered)| ==>
        Places(cutter.playback.fates, Delivered)[i] < |cutter.playback.history|
    {
      EveryFrameHasOneFate(cutter.playback.history, cutter.playback.fates);
    }

    /** Every frame is 20 ms of 16-bit samples at the telephony rate, to the nearest sample. */
    lemma FramesAreTwentyMs()
      requires Consuming()
      ensures IsTwentyMs(cutter.packetBytes, cutter.telephonyRate)
      ensures cutter.telephonyRate == 8000 ==> cutter.packetBytes == 320
      ensures forall i :: 0 <= i < |cutter.playback.history| ==> |cutter.playback.history[i].payload| == cutter.packetBytes
    {
      assert Open(0);
      TwentyMsIs(cutter.packetBytes, cutter.telephonyRate);
      forall i | 0 <= i < |cutter.playback.history|
        ensures |cutter.playback.history[i].payload| == cutter.packetBytes
      {
        cutter.FrameAt(i);
      }
    }

    /** At a multiple of 50 Hz the position of a frame is the length of its item's audio up to its end. */
    lemma PositionsAreTimes(i: nat)
      requires Producing() && cutter.telephonyRate % 50 == 0
      requires cutter.epochStart <= i < |cutter.playback.history|
      ensures var position := cutter.playback.history[i].position;
              position.Some? ==>
                1000 * TotalBytes(cutter.playback.history[cutter.epochStart..i + 1])
                == position.value.audioEndMs * (2 * cutter.telephonyRate)
    {
      FramesAreTwentyMs();
      assert Open(0);
      TwentyMsIs(cutter.packetBytes, cutter.telephonyRate);
      var frames := cutter.playback.history[cutter.epochStart..i + 1];
      TotalOfWhole(frames, cutter.packetBytes);
      EpochFramesAreWhole(cutter.playback.history, cutter.frameOrigins, cutter.epochStart, cutter.framed,
                          cutter.byteOrigins[..|cutter.framed|], cutter.currentItem, cutter.packetBytes);
      assert cutter.playback.history[cutter.epochStart..][i - cutter.epochStart] == cutter.playback.history[i];
      Lengths(|frames|, cutter.packetBytes, 2 * cutter.telephonyRate);
    }

    /** Since the last interruption a frame is dropped only when the one a whole queue behind it is put. */
    lemma DropsAreOverflow()
      requires cutter.Fenced()
      ensures forall i :: cutter.drainedAt <= i < |cutter.playback.fates| && cutter.playback.fates[i] == Dropped ==>
        i + 250 < |cutter.playback.history|
    {
      PushedOutMeans(cutter.playback.fates, cutter.drainedAt, |cutter.playback.history|);
    }

    /**
      Every frame put is a stretch of what the chunks of its epoch make.  Those put since the last interruption,
      and so all that may still be taken from the queue, come from epochs of later chunks only.
     */
    lemma OnlyLaterAudioIsQueued()
      requires Consuming()
      ensures |cutter.cuts| == |cutter.frameOrigins| == |cutter.playback.history|
      ensures cutter.drainedAt <= |cutter.playback.fates|
      ensures forall i :: 0 <= i < |cutter.playback.history| ==>
        && FrameOk(cutter.playback.history[i], cutter.frameOrigins[i], cutter.packetBytes)
        && CutFrom(cutter.playback.history[i].payload, cutter.frameOrigins[i], cutter.cuts[i], cutter.telephonyRate,
                   cutter.shape)
      ensures forall i :: cutter.drainedAt <= i < |cutter.playback.history| ==>
        AllAbove(cutter.frameOrigins[i], cutter.barrier) && EpochAbove(cutter.cuts[i].epoch, cutter.barrier)
    {
      assert Open(0);
      assert Expose(0);
    }

    /**
      Frames are reported as started once each, in the order of the queue.  Of those reported since the last
      interruption all but at most one hold only later audio, and that one was being written when it struck.
     */
    lemma AtMostOneStale()
      requires Consuming()
      ensures startedAtDrain <= |log.written|
      ensures forall i, j :: 0 <= i < j < |log.written| ==> log.written[i].ordinal < log.written[j].ordinal
      ensures forall i :: 0 <= i < |log.written| ==> WasDelivered(log.written[i])
      ensures forall i :: startedAtDrain <= i < |log.written| ==>
        || IsLaterAudio(log.written[i])
        || (i == startedAtDrain && inTransit == Some(log.written[i].ordinal))
    {
      assert Open(0);
      HandedMeans(log.written, InWriting(), cutter.playback.fates, startedAtDrain, inTransit, cutter.drainedAt);
      OnlyLaterAudioIsQueued();
      forall i | 0 <= i < |log.written| ensures WasDelivered(log.written[i]) {}
    }

    ghost predicate WasDelivered(entry: Written)
      reads cutter.playback`fates
    {
      0 < entry.ordinal <= |cutter.playback.fates| && cutter.playback.fates[entry.ordinal - 1] == Delivered
    }

    /** The frame holds bytes of chunks after the last interruption only. */
    ghost predicate IsLaterAudio(entry: Written)
      reads cutter`frameOrigins, cutter`barrier
    {
      0 < entry.ordinal <= |cutter.frameOrigins| && AllAbove(cutter.frameOrigins[entry.ordinal - 1], cutter.barrier)
    }

    /**
      The frames cut since the last reset, the one in hand and the packet buffer are, joined, what the chunks since
      then render to; and so are the chunks behind their bytes.
     */
    lemma FramesRenderTheEpoch()
      requires Producing()
      ensures var start, done := cutter.epochStart, |cutter.framed|;
              && start <= |cutter.playback.history| == |cutter.frameOrigins|
              && Flatten(Payloads(cutter.playback.history[start..])) + cutter.inHand + cutter.packetBuffer
                 == Rendered(cutter.epoch, cutter.telephonyRate, cutter.shape)
              && |Flatten(Payloads(cutter.playback.history[start..]))| == done <= done + |cutter.inHand|
                 <= |cutter.byteOrigins|
              && Flatten(cutter.frameOrigins[start..]) + cutter.byteOrigins[done..done + |cutter.inHand|]
                 + Expand(cutter.packetSources) == Origins(cutter.epoch, cutter.telephonyRate, cutter.shape)
    {
      assert Open(0);
      FramedMeans(cutter.playback.history, cutter.frameOrigins, cutter.epochStart, cutter.framed,
                  cutter.byteOrigins[..|cutter.framed|], cutter.currentItem, cutter.packetBytes);
      RendersMeans(cutter.epoch, cutter.telephonyRate, cutter.shape, cutter.bytes, cutter.byteOrigins,
                   cutter.outputResampler);
      AccountedMeans(cutter.packetBuffer, cutter.packetSources, cutter.framed + cutter.inHand, cutter.bytes,
                     cutter.byteOrigins);
      ThreeParts(cutter.byteOrigins, |cutter.framed|, |cutter.framed + cutter.inHand|);
    }

    /**
      While the provider keeps to one rate of at most three times the telephony rate, the frames since the last
      reset, with what is in hand and in the buffer, are as long as the settled part of the one-shot resampling.
     */
    lemma FramesAreAsLongAsOneShot(input: Rate)
      requires Producing() && KeepsLength(cutter.shape) && input <= 3 * cutter.telephonyRate
      requires forall i :: 0 <= i < |cutter.epoch| ==> cutter.epoch[i].rate == input
      ensures (|cutter.playback.history| - cutter.epochStart) * cutter.packetBytes + |cutter.inHand| + |cutter.packetBuffer|
           == 2 * if input == cutter.telephonyRate then |Received(cutter.epoch)|
                  else Settled(Received(cutter.epoch), input, cutter.telephonyRate)
    {
      FramesRenderTheEpoch();
      RenderedLength(cutter.epoch, cutter.telephonyRate, cutter.shape);
      EpochIsOneShotPrefix(cutter.epoch, input, cutter.telephonyRate);
      FramesAreWhole();
    }

    lemma FramesAreWhole()
      requires Producing()
      ensures cutter.epochStart <= |cutter.playback.history|
      ensures |Flatten(Payloads(cutter.playback.history[cutter.epochStart..]))|
           == (|cutter.playback.history| - cutter.epochStart) * cutter.packetBytes
    {
      assert Open(0);
      var frames := cutter.playback.history[cutter.epochStart..];
      forall i | 0 <= i < |frames| ensures |frames[i].payload| == cutter.packetBytes {
        cutter.FrameAt(cutter.epochStart + i);
      }
      TotalOfWhole(frames, cutter.packetBytes);
      TotalIsLength(frames);
    }

    /** No two events carry the same id, bursts alternate, and each stop reports what its burst wrote. */
    lemma TimelineIsSound(bargeAlias: string, playbackAlias: string)
      requires log.Valid()
      ensures Distinct(Ids.Rendered(IdsOf(log.timeline), bargeAlias, playbackAlias))
      ensures Ids.PlaybackEvents(IdsOf(log.timeline))
           == Ids.Alternation(2 * log.playbackSequence - if log.activePlayback.Some? then 1 else 0)
      ensures forall i :: 0 <= i < |log.timeline| && log.timeline[i].id.PlaybackStop? ==>
        && log.timeline[i].attributes.WrittenAudio?
        && log.timeline[i].attributes.bytes == BytesOf(log.written, log.timeline[i].id.playback)
    {
      assert Expose(0);
      Ids.IssuedOnce(IdsOf(log.timeline), bargeAlias, playbackAlias);
      Ids.PlaybackAlternates(IdsOf(log.timeline));
      forall i | 0 <= i < |log.timeline| && log.timeline[i].id.PlaybackStop?
        ensures StopReports(log.timeline[i], log.written, log.LastClosed())
      {
      }
    }

    ghost predicate NothingLeft()
      reads cutter`packetBuffer, cutter`packetSources, cutter`epoch, cutter`outputResampler, cutter`currentItem
      reads cutter`epochStart, cutter.playback`frames, cutter.playback`history
    {
      && cutter.playback.frames == []
      && cutter.packetBuffer == [] && cutter.packetSources == [] && cutter.epoch == [] && cutter.outputResampler == None
      && cutter.currentItem == None && cutter.epochStart == |cutter.playback.history|
    }

    /** The frames discarded are the last ones put, and the chunks reported are those behind their bytes. */
    ghost predicate Discarded(dropped: seq<Frame>, window: Option<Window>, partial: seq<nat>)
      reads cutter`frameOrigins, cutter.playback`history
    {
      DiscardedFrom(cutter.playback.history, cutter.frameOrigins, dropped, window, partial, cutter.packetBytes)
    }

    ghost predicate Reported(step: nat, path: string, playedMs: Option<int>, dropped: seq<Frame>, window: Option<Window>,
                             partialBytes: nat)
      reads log`timeline, log`bargeSequence
    {
      Reports(log.timeline, log.bargeSequence, step, path, playedMs, dropped, window, partialBytes)
    }
  }

  /** What was discarded is the end of all frames put, and the chunks named are those behind its bytes. */
  ghost predicate IsDiscardedFrom(history: seq<Frame>, frameOrigins: seq<seq<nat>>, dropped: seq<Frame>,
                                  window: Option<Window>, partial: seq<nat>, packetBytes: nat)
  {
    && |dropped| <= |history| == |frameOrigins|
    && dropped == history[|history| - |dropped|..]
    && TotalBytes(dropped) == |dropped| * packetBytes
    && forall chunk ::
        (chunk in DiscardedChunks(dropped, window)
         <==> chunk in Flatten(frameOrigins[|history| - |dropped|..]) || chunk in partial)
  }

  ghost predicate DiscardedFrom(history: seq<Frame>, frameOrigins: seq<seq<nat>>, dropped: seq<Frame>,
                                window: Option<Window>, partial: seq<nat>, packetBytes: nat)
  {
    forall n: nat {:trigger Expose(n)} ::
      Expose(n) ==> IsDiscardedFrom(history, frameOrigins, dropped, window, partial, packetBytes)
  }

  /** The window of the partial frame, if there is one, names the chunks behind its bytes. */
  ghost predicate Accounts(window: Option<Window>, partial: seq<nat>) {
    forall n: nat {:trigger Expose(n)} ::
      Expose(n) ==>
        if window.Some? then Names(window.value, partial) && window.value.chunks != [] else partial == []
  }

  ghost function EarlierOf(history: seq<Frame>, origins: seq<seq<nat>>, start: nat): seq<FramePlan> {
    if start <= |history| == |origins| then PlanOf(history[..start], origins[..start]) else []
  }

  /** Frames once put stay as they are, so those before the epoch change only if it starts anew. */
  lemma EarlierIs(past: Past, now: Past, before: nat, start: nat)
    requires Later(past, now) && before <= |past.history| == |past.origins|
    requires |now.history| == |now.origins|
    ensures start == before ==>
      EarlierOf(now.history, now.origins, start) == EarlierOf(past.history, past.origins, before)
    ensures start == |past.history| ==>
      EarlierOf(now.history, now.origins, start) == PlanOf(past.history, past.origins)
  {
    LaterMeans(past, now);
  }

  lemma EpochFramesAreWhole(history: seq<Frame>, origins: seq<seq<nat>>, start: nat, bytes: seq<Byte>, byteOrigins: seq<nat>,
                            item: Option<Item>, packetBytes: nat)
    requires Framed(history, origins, start, bytes, byteOrigins, item, packetBytes)
    ensures start <= |history| == |origins|
    ensures forall i :: 0 <= i < |history[start..]| ==>
      |history[start..][i].payload| == |origins[start..][i]| == packetBytes
      && history[start..][i].position == PositionOf(item, 1 + i)
    ensures packetBytes == 0 ==> history == []
  {
    assert Expose(0);
    forall i | 0 <= i < |history[start..]|
      ensures |history[start..][i].payload| == |origins[start..][i]| == packetBytes
        && history[start..][i].position == PositionOf(item, 1 + i)
    {
      assert FrameOk(history[start + i], origins[start + i], packetBytes);
      assert history[start + i].position == PositionOf(item, start + i - start + 1);
    }
    if history != [] { assert FrameOk(history[0], origins[0], packetBytes); }
  }

  lemma NothingInHand<T>(s: seq<T>, none: seq<T>)
    ensures none == [] ==> s + none == s
  {}

  lemma Lengths(frames: nat, packetBytes: nat, bytesPerSecond: nat)
    requires 1000 * packetBytes == 20 * bytesPerSecond
    ensures 1000 * (frames * packetBytes) == 20 * frames * bytesPerSecond
  {
    assert 1000 * (frames * packetBytes) == frames * (1000 * packetBytes);
  }

  lemma ThreeParts<T>(s: seq<T>, n: nat, m: nat)
    requires n <= m <= |s|
    ensures s[..n] + s[n..m] + s[m..] == s
  {}

  lemma DiscardedAreLast(history: seq<Frame>, frameOrigins: seq<seq<nat>>, dropped: seq<Frame>, origins: seq<seq<nat>>,
                         window: Option<Window>, partial: seq<nat>, packetBytes: nat)
    requires |dropped| <= |history| == |frameOrigins| && dropped == history[|history| - |dropped|..]
    requires origins == frameOrigins[|history| - |dropped|..] && TotalBytes(dropped) == |dropped| * packetBytes
    requires forall i :: 0 <= i < |dropped| ==> FrameOk(dropped[i], origins[i], packetBytes)
    requires Accounts(window, partial)
    ensures DiscardedFrom(history, frameOrigins, dropped, window, partial, packetBytes)
  {
    assert Expose(0);
    DiscardedAreOrigins(dropped, window, origins, partial, packetBytes);
    FlattenHas(origins);
  }

  lemma {:induction false} FlattenHas(parts: seq<seq<nat>>)
    ensures forall x :: x in Flatten(parts) <==> exists i :: 0 <= i < |parts| && x in parts[i]
  {
    if parts != [] {
      FlattenHas(parts[1..]);
      forall x ensures x in Flatten(parts) <==> exists i :: 0 <= i < |parts| && x in parts[i] {
        if x in Flatten(parts[1..]) {
          var i :| 0 <= i < |parts[1..]| && x in parts[1..][i];
          assert x in parts[i + 1];
        }
        if i :| 0 <= i < |parts| && x in parts[i] {
          assert i > 0 ==> parts[1..][i - 1] == parts[i];
        }
      }
    }
  }

  /** The position that the code arrives at; `since` is how long ago the frame in flight was started. */
  function EffectiveAt(last: Option<Position>, inflight: Option<Position>, since: int): Option<Position> {
    if inflight.None? then last
    else
      var end := inflight.value.audioEndMs;
      var start := if last.Some? && last.value.item == inflight.value.item then last.value.audioEndMs
                   else if end > 20 then end - 20 else 0;
      var elapsed := if since < 0 then 0 else since / 1000;
      Some(Position(inflight.value.item, if end < start + elapsed then end else start + elapsed))
  }

  /**
    Once its 20 ms are over, the frame in flight counts as heard exactly when no position of the same item has been
    played, or the time since it was started bridges the distance from that position.
   */
  lemma HeardInFullExactly(last: Option<Position>, inflight: Position, since: int)
    requires since >= 20_000 && inflight.audioEndMs >= 0
    ensures EffectiveAt(last, Some(inflight), since) == Some(inflight) <==>
      || last.None? || last.value.item != inflight.item
      || inflight.audioEndMs <= last.value.audioEndMs + since / 1000
  {}

  /** After an overflow of the queue five frames are missing in between, and 20 ms do not bridge them. */
  lemma OverflowFallsShort(item: Item)
    ensures EffectiveAt(Some(Position(item, 20)), Some(Position(item, 140)), 20_000) == Some(Position(item, 40))
  {}

  /** What the session knew of the playback when it told the provider what was heard. */
  datatype Hearing = Hearing(last: Option<Position>, inflight: Option<Position>, since: int)

  /**
    The provider is told the position that the caller has reached, if that is in the current item or there is no
    current item, and otherwise that nothing of the current item was heard.
   */
  ghost predicate IsTold(told: Option<Position>, item: Option<Item>, hearing: Hearing) {
    var reached := EffectiveAt(hearing.last, hearing.inflight, hearing.since);
    && (item.None? ==> told == reached)
    && (item.Some? && reached.Some? && reached.value.item == item.value ==> told == reached)
    && (item.Some? && (reached.None? || reached.value.item != item.value) ==> told == Some(Position(item.value, 0)))
  }

  /** With nothing in flight and a played frame of the current item, it is told that frame's end. */
  lemma ToldWhatWasPlayed(told: Option<Position>, item: Item, last: Position, since: int)
    requires IsTold(told, Some(item), Hearing(Some(last), None, since)) && last.item == item
    ensures told == Some(last)
  {}

  /** How the provider came to stop speaking, as far as the bridge knows. */
  function PathOf(provider: ProviderTraits, started: bool, interrupt: Reply): string {
    if !started then "provider-interrupted"
    else if provider.autoInterrupts then "provider-auto"
    else if provider.canInterrupt && interrupt == Yes then "provider-request" else "unobserved"
  }

  function PlayedMs(position: Option<Position>): Option<int> {
    if position.Some? then Some(position.value.audioEndMs) else None
  }

  lemma {:induction false} TotalIsLength(frames: seq<Frame>)
    ensures TotalBytes(frames) == |Flatten(Payloads(frames))|
  {
    if frames != [] {
      assert Payloads(frames)[1..] == Payloads(frames[1..]);
      TotalIsLength(frames[1..]);
    }
  }

  /** What the other coroutines may do to the ids issued: playback starts and stops, and the end of speech. */
  predicate OnlyOthers(before: Ids.Issue, after: Ids.Issue) {
    after == before.(playback := after.playback, open := after.open, speech := after.speech)
  }

  predicate OnlySteps(before: Ids.Issue, after: Ids.Issue) {
    after == before.(step := after.step, playback := after.playback, open := after.open, speech := after.speech)
  }
}

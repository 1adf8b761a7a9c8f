/** The values the realtime bridge handles, and what must hold of the frames it has cut. */
module BridgeState {
  import opened Common
  import opened Pcm16
  import opened PacketSources

  datatype Item = Item(id: string, contentIndex: int)

  datatype Position = Position(item: Item, audioEndMs: int)

  datatype Frame = Frame(payload: seq<Byte>, position: Option<Position>, ordinal: nat, window: Window, enqueuedAt: int)

  datatype RecentChunk = RecentChunk(ordinal: nat, receivedAt: int)

  datatype Message =
    | ProviderEvent(eventType: string, at: int, interrupt: Reply, truncate: Reply)
    | ProviderAudio(pcm: seq<Byte>, sampleRate: int, encoding: string, channels: int, item: Option<Item>, at: int)

  /** How the provider session answers a request: with its boolean result, or by raising. */
  datatype Reply = Yes | No | Raises

  datatype ProviderTraits = ProviderTraits(autoInterrupts: bool, canInterrupt: bool, canTruncate: bool, persistent: bool)

  /** Where `_pump_output`, the coroutine that writes frames to the call, stands. */
  datatype Pump = Resting(previous: Option<Frame>) | Waiting | Writing(frame: Frame) | Finished

  /** Audio that the bridge can use: mono 16-bit PCM of whole samples at a positive rate. */
  predicate Usable(audio: Message)
    requires audio.ProviderAudio?
  {
    audio.encoding == "pcm16" && audio.channels == 1 && audio.sampleRate > 0 && |audio.pcm| % 2 == 0
  }

  // ---------------------------------------------------------------- frames

  function Payloads(frames: seq<Frame>): seq<seq<Byte>> {
    seq(|frames|, i requires 0 <= i < |frames| => frames[i].payload)
  }

  /** The position of the n-th frame of an item: each frame is 20 ms. */
  function PositionOf(item: Option<Item>, n: nat): Option<Position> {
    if item.Some? then Some(Position(item.value, 20 * n)) else None
  }

  /** A whole frame whose window names the chunks of its bytes. */
  ghost predicate FrameOk(frame: Frame, origins: seq<nat>, packetBytes: nat) {
    && |frame.payload| == |origins| == packetBytes > 0
    && Names(frame.window, origins)
    && (frame.position.Some? ==> frame.position.value.audioEndMs >= 20)
  }

  ghost predicate AllAbove(origins: seq<nat>, barrier: nat) {
    forall k :: 0 <= k < |origins| ==> origins[k] > barrier
  }

  ghost predicate AllAtMost(origins: seq<nat>, last: nat) {
    forall k :: 0 <= k < |origins| ==> origins[k] <= last
  }

  /**
    Of all frames ever put: each is whole and numbered, and those from `start` on are, joined, the given
    bytes with the given origins, at the positions of the given item.
   */
  ghost predicate IsFramed(history: seq<Frame>, origins: seq<seq<nat>>, start: nat, bytes: seq<Byte>,
                           byteOrigins: seq<nat>, item: Option<Item>, packetBytes: nat)
  {
    && |origins| == |history| && start <= |history|
    && Flatten(Payloads(history[start..])) == bytes
    && Flatten(origins[start..]) == byteOrigins
    && (forall i :: 0 <= i < |history| ==> FrameOk(history[i], origins[i], packetBytes))
    && (forall i :: 0 <= i < |history| ==> history[i].ordinal == i + 1)
    && (forall i :: start <= i < |history| ==> history[i].position == PositionOf(item, i - start + 1))
  }

  ghost predicate Framed(history: seq<Frame>, origins: seq<seq<nat>>, start: nat, bytes: seq<Byte>,
                         byteOrigins: seq<nat>, item: Option<Item>, packetBytes: nat)
  {
    forall n: nat {:trigger Expose(n)} ::
      Expose(n) ==> IsFramed(history, origins, start, bytes, byteOrigins, item, packetBytes)
  }

  lemma FramedMeans(history: seq<Frame>, origins: seq<seq<nat>>, start: nat, bytes: seq<Byte>, byteOrigins: seq<nat>,
                    item: Option<Item>, packetBytes: nat)
    requires Framed(history, origins, start, bytes, byteOrigins, item, packetBytes)
    ensures start <= |history| == |origins|
    ensures Flatten(Payloads(history[start..])) == bytes && Flatten(origins[start..]) == byteOrigins
  {
    assert Expose(0);
  }

  lemma FramedAt(history: seq<Frame>, origins: seq<seq<nat>>, start: nat, bytes: seq<Byte>, byteOrigins: seq<nat>,
                 item: Option<Item>, packetBytes: nat, i: nat)
    requires Framed(history, origins, start, bytes, byteOrigins, item, packetBytes) && i < |history|
    ensures |origins| == |history| && FrameOk(history[i], origins[i], packetBytes) && history[i].ordinal == i + 1
  {
    assert Expose(0);
  }

  lemma FramedAppend(history: seq<Frame>, origins: seq<seq<nat>>, start: nat, bytes: seq<Byte>, byteOrigins: seq<nat>,
                     item: Option<Item>, packetBytes: nat, frame: Frame, more: seq<nat>)
    requires Framed(history, origins, start, bytes, byteOrigins, item, packetBytes)
    requires start <= |history| && FrameOk(frame, more, packetBytes) && frame.ordinal == |history| + 1
    requires frame.position == PositionOf(item, |history| - start + 1)
    ensures Framed(history + [frame], origins + [more], start, bytes + frame.payload, byteOrigins + more, item, packetBytes)
  {
    assert Expose(0);
    PayloadsAppend(history, start, frame);
    OriginsAppend(origins, start, more);
  }

  lemma PayloadsAppend(history: seq<Frame>, start: nat, frame: Frame)
    requires start <= |history|
    ensures Flatten(Payloads((history + [frame])[start..])) == Flatten(Payloads(history[start..])) + frame.payload
  {
    assert (history + [frame])[start..] == history[start..] + [frame];
    assert Payloads(history[start..] + [frame]) == Payloads(history[start..]) + [frame.payload];
    FlattenAppend(Payloads(history[start..]), frame.payload);
  }

  lemma OriginsAppend(origins: seq<seq<nat>>, start: nat, more: seq<nat>)
    requires start <= |origins|
    ensures Flatten((origins + [more])[start..]) == Flatten(origins[start..]) + more
  {
    assert (origins + [more])[start..] == origins[start..] + [more];
    FlattenAppend(origins[start..], more);
  }

  /** A reset starts a new epoch after the frames there are. */
  lemma FramedReset(history: seq<Frame>, origins: seq<seq<nat>>, start: nat, bytes: seq<Byte>, byteOrigins: seq<nat>,
                    item: Option<Item>, packetBytes: nat, next: Option<Item>)
    requires Framed(history, origins, start, bytes, byteOrigins, item, packetBytes)
    ensures Framed(history, origins, |history|, [], [], next, packetBytes)
  {
    assert Expose(0);
    assert history[|history|..] == [] && origins[|history|..] == [];
  }

  lemma NothingFramed(packetBytes: nat)
    ensures Framed([], [], 0, [], [], None, packetBytes)
  {
    var none: seq<Frame> := [];
    assert none[0..] == [] && Payloads(none) == [];
  }
}

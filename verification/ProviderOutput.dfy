/**
  What the bridge makes of the provider chunks of one epoch, that is, of those received since its output
  path was last reset: the bytes, and for every byte the chunk that completed it.
 */
module ProviderOutput {
  import opened Common
  import opened Pcm16
  import opened Resampler
  import opened PacketSources

  datatype Chunk = Chunk(ordinal: nat, samples: seq<Sample>, rate: Rate)

  /** The gain and limiter stages act on each resampled chunk by itself and keep its length. */
  type Shape = seq<Byte> -> seq<Byte>

  ghost predicate KeepsLength(shape: Shape) {
    forall bytes :: |shape(bytes)| == |bytes|
  }

  /** The resampler that is in use after some chunks; a change of rate replaces it. */
  datatype Carry = Carry(rate: Rate, state: State)

  function StateFor(carry: Option<Carry>, rate: Rate): State {
    if carry.Some? && carry.value.rate == rate then carry.value.state else INITIAL
  }

  function After(epoch: seq<Chunk>, output: Rate): Option<Carry>
    decreases |epoch|, 0
  {
    if epoch == [] then None
    else
      var last := epoch[|epoch| - 1];
      Some(Carry(last.rate, Resampled(epoch[..|epoch| - 1], last, output).0))
  }

  /** What the chunk adds after the given ones. */
  function Resampled(earlier: seq<Chunk>, chunk: Chunk, output: Rate): (State, seq<Sample>)
    decreases |earlier|, 1
  {
    Processed(StateFor(After(earlier, output), chunk.rate), chunk.samples, chunk.rate, output)
  }

  /** The first chunk, and each chunk at another rate than the one before it, is resampled from nothing. */
  lemma NewRateStartsAfresh(earlier: seq<Chunk>, chunk: Chunk, output: Rate)
    requires earlier == [] || earlier[|earlier| - 1].rate != chunk.rate
    ensures Resampled(earlier, chunk, output) == Processed(State([], 0), chunk.samples, chunk.rate, output)
  {}

  /** A chunk at the rate of the one before it goes on where that one left the resampler. */
  lemma SameRateGoesOn(earlier: seq<Chunk>, previous: Chunk, chunk: Chunk, output: Rate)
    requires previous.rate == chunk.rate
    ensures Resampled(earlier + [previous], chunk, output)
         == Processed(Resampled(earlier, previous, output).0, chunk.samples, chunk.rate, output)
  {
    assert (earlier + [previous])[..|earlier|] == earlier;
  }

  function Piece(earlier: seq<Chunk>, chunk: Chunk, output: Rate, shape: Shape): seq<Byte> {
    var samples := Resampled(earlier, chunk, output).1;
    if samples == [] then [] else shape(Pack(samples))
  }

  /** All bytes of an epoch. */
  function Rendered(epoch: seq<Chunk>, output: Rate, shape: Shape): seq<Byte> {
    if epoch == [] then []
    else
      Rendered(epoch[..|epoch| - 1], output, shape) + Piece(epoch[..|epoch| - 1], epoch[|epoch| - 1], output, shape)
  }

  /** The chunk that completed each byte of an epoch. */
  function Origins(epoch: seq<Chunk>, output: Rate, shape: Shape): seq<nat> {
    if epoch == [] then []
    else
      var earlier := epoch[..|epoch| - 1];
      var last := epoch[|epoch| - 1];
      Origins(earlier, output, shape) + Repeat(last.ordinal, |Piece(earlier, last, output, shape)|)
  }

  lemma RenderedAppend(epoch: seq<Chunk>, chunk: Chunk, output: Rate, shape: Shape)
    ensures After(epoch + [chunk], output) == Some(Carry(chunk.rate, Resampled(epoch, chunk, output).0))
    ensures Rendered(epoch + [chunk], output, shape)
         == Rendered(epoch, output, shape) + Piece(epoch, chunk, output, shape)
    ensures Origins(epoch + [chunk], output, shape)
         == Origins(epoch, output, shape) + Repeat(chunk.ordinal, |Piece(epoch, chunk, output, shape)|)
  {
    assert (epoch + [chunk])[..|epoch|] == epoch;
  }

  /** The bytes and origins of an epoch, and the resampler left by it. */
  ghost predicate IsRendering(epoch: seq<Chunk>, output: Rate, shape: Shape, bytes: seq<Byte>, origins: seq<nat>,
                              carry: Option<Carry>)
  {
    && bytes == Rendered(epoch, output, shape)
    && origins == Origins(epoch, output, shape)
    && carry == After(epoch, output)
  }

  ghost predicate Renders(epoch: seq<Chunk>, output: Rate, shape: Shape, bytes: seq<Byte>, origins: seq<nat>,
                          carry: Option<Carry>)
  {
    forall n: nat {:trigger Expose(n)} :: Expose(n) ==> IsRendering(epoch, output, shape, bytes, origins, carry)
  }

  lemma RendersMeans(epoch: seq<Chunk>, output: Rate, shape: Shape, bytes: seq<Byte>, origins: seq<nat>,
                     carry: Option<Carry>)
    ensures Renders(epoch, output, shape, bytes, origins, carry)
       <==> IsRendering(epoch, output, shape, bytes, origins, carry)
  {
    assert Expose(0);
  }

  lemma NothingRenders(output: Rate, shape: Shape)
    ensures Renders([], output, shape, [], [], None)
  {}

  lemma RendersNext(epoch: seq<Chunk>, output: Rate, shape: Shape, bytes: seq<Byte>, origins: seq<nat>,
                    carry: Option<Carry>, chunk: Chunk, piece: seq<Byte>)
    requires Renders(epoch, output, shape, bytes, origins, carry)
    requires var samples := Processed(StateFor(carry, chunk.rate), chunk.samples, chunk.rate, output).1;
             piece == if samples == [] then [] else shape(Pack(samples))
    ensures var state := Processed(StateFor(carry, chunk.rate), chunk.samples, chunk.rate, output).0;
            Renders(epoch + [chunk], output, shape, bytes + piece, origins + Repeat(chunk.ordinal, |piece|),
                    Some(Carry(chunk.rate, state)))
  {
    RendersMeans(epoch, output, shape, bytes, origins, carry);
    RenderedAppend(epoch, chunk, output, shape);
  }

  function ChunkOrdinals(epoch: seq<Chunk>): set<nat> {
    set chunk | chunk in epoch :: chunk.ordinal
  }

  /** Every byte has an origin, and the origin is a chunk of the epoch. */
  lemma {:induction false} OriginsAreChunks(epoch: seq<Chunk>, output: Rate, shape: Shape, low: nat, high: nat)
    requires forall i :: 0 <= i < |epoch| ==> low < epoch[i].ordinal <= high
    ensures |Origins(epoch, output, shape)| == |Rendered(epoch, output, shape)|
    ensures forall origin :: origin in Origins(epoch, output, shape) ==> origin in ChunkOrdinals(epoch)
    ensures forall k :: 0 <= k < |Origins(epoch, output, shape)| ==> low < Origins(epoch, output, shape)[k] <= high
  {
    if epoch != [] {
      var earlier, last := epoch[..|epoch| - 1], epoch[|epoch| - 1];
      OriginsAreChunks(earlier, output, shape, low, high);
      assert ChunkOrdinals(earlier) <= ChunkOrdinals(epoch) && last.ordinal in ChunkOrdinals(epoch);
    }
  }

  // ---------------------------------------------------------------- one format per epoch

  function Received(epoch: seq<Chunk>): seq<Sample> {
    if epoch == [] then [] else Received(epoch[..|epoch| - 1]) + epoch[|epoch| - 1].samples
  }

  /** The bytes of an epoch before gain and limiter. */
  function Unshaped(epoch: seq<Chunk>, output: Rate): seq<Sample> {
    if epoch == [] then []
    else Unshaped(epoch[..|epoch| - 1], output) + Resampled(epoch[..|epoch| - 1], epoch[|epoch| - 1], output).1
  }

  lemma {:induction false} RenderedLength(epoch: seq<Chunk>, output: Rate, shape: Shape)
    requires KeepsLength(shape)
    ensures |Rendered(epoch, output, shape)| == 2 * |Unshaped(epoch, output)|
  {
    if epoch != [] {
      RenderedLength(epoch[..|epoch| - 1], output, shape);
    }
  }

  /**
    While the provider keeps to one rate of at most three times the telephony rate, the samples of an
    epoch are the part of the one-shot resampling of everything received that is already final.
   */
  lemma {:induction false} EpochIsOneShotPrefix(epoch: seq<Chunk>, input: Rate, output: Rate)
    requires input <= 3 * output
    requires forall i :: 0 <= i < |epoch| ==> epoch[i].rate == input
    ensures input == output ==> Unshaped(epoch, output) == Received(epoch)
    ensures input != output ==>
      && InPhase(Received(epoch), StateFor(After(epoch, output), input), input, output)
      && Unshaped(epoch, output)
         == Outputs(Received(epoch), 0, Settled(Received(epoch), input, output), input, output)
  {
    if epoch == [] {
      StartsInPhase(input, output);
    } else {
      var earlier, chunk := epoch[..|epoch| - 1], epoch[|epoch| - 1];
      EpochIsOneShotPrefix(earlier, input, output);
      if input != output {
        ChunkExtends(Received(earlier), StateFor(After(earlier, output), input), chunk.samples, input, output);
      }
    }
  }
}

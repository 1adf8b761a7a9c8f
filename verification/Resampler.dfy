/**
  The linear PCM16 stream resampler.

  `Pcm16MonoStreamResampler` is the stateful object; `Processed` and `Flushed` specify its calls on values.
  `ClosedForm` is the reference: output `k` interpolates at input position `k * input / output`, a
  definition that knows nothing of chunks, retained samples or carried phase.
 */
module Resampler {
  import opened Arith
  import opened Common
  import opened Pcm16

  type Rate = r: int | r > 0 witness 1

  // ---------------------------------------------------------------- rounding

  /** Python's `round` on an exact rational: to the nearest integer, ties to the even one. */
  function RoundHalfEven(n: int, d: Rate): int {
    var q, rest := n / d, n % d;
    if 2 * rest < d || (2 * rest == d && q % 2 == 0) then q else q + 1
  }

  lemma RoundHalfEvenNearest(n: int, d: int)
    requires d > 0
    ensures -d <= 2 * (RoundHalfEven(n, d) * d - n) <= d
    ensures 2 * (RoundHalfEven(n, d) * d - n) in {-d, d} ==> RoundHalfEven(n, d) % 2 == 0
  {
    DivMod(n, d);
    assert (n / d + 1) * d == n / d * d + d;
  }

  lemma RoundWithin(n: int, d: Rate, low: int, high: int)
    requires low * d <= n <= high * d
    ensures low <= RoundHalfEven(n, d) <= high
  {
    DivMod(n, d);
    DivLess(n, d, low);
    assert (high + 1) * d == high * d + d;
    DivLess(n, d, high + 1);
    if n / d == high {
      assert n / d * d == high * d;
    }
  }

  // ---------------------------------------------------------------- the specification

  /** The object's two fields. */
  datatype State = State(samples: seq<Sample>, position: nat)

  const INITIAL := State([], 0)

  predicate CanEmit(available: nat, left: nat, needRight: bool) {
    left < available && (needRight ==> left + 1 < available)
  }

  /** The interpolated value at `position / output` input samples, the last sample being held. */
  function Interpolate(samples: seq<Sample>, position: nat, output: Rate): (value: Sample)
    requires position / output < |samples|
  {
    DivMono(0, position, output);
    Between(samples, position / output, position % output, output)
  }

  function Between(samples: seq<Sample>, left: nat, fraction: nat, output: Rate): (value: Sample)
    requires left < |samples| && fraction < output
  {
    var right := if left + 1 < |samples| then left + 1 else left;
    InterpolationInRange(samples[left], samples[right], fraction, output);
    RoundHalfEven(samples[left] * (output - fraction) + samples[right] * fraction, output)
  }

  lemma InterpolationInRange(left: Sample, right: Sample, fraction: int, output: Rate)
    requires 0 <= fraction < output
    ensures -32768 <= RoundHalfEven(left * (output - fraction) + right * fraction, output) <= 32767
  {
    MulMono(-32768, left, output - fraction);
    MulMono(left, 32767, output - fraction);
    MulMono(-32768, right, fraction);
    MulMono(right, 32767, fraction);
    RoundWithin(left * (output - fraction) + right * fraction, output, -32768, 32767);
  }

  /** What the production loop appends, from `position` on. */
  function Emit(samples: seq<Sample>, position: nat, input: Rate, output: Rate, needRight: bool): seq<Sample>
    decreases |samples| * output - position
  {
    DivMono(0, position, output);
    DivLess(position, output, |samples|);
    if CanEmit(|samples|, position / output, needRight) then
      [Interpolate(samples, position, output)] + Emit(samples, position + input, input, output, needRight)
    else
      []
  }

  lemma EmitStep(before: seq<Sample>, samples: seq<Sample>, position: nat, input: Rate, output: Rate, needRight: bool)
    requires position / output < |samples|
    requires CanEmit(|samples|, position / output, needRight)
    ensures var value := Interpolate(samples, position, output);
            && before + Emit(samples, position, input, output, needRight)
                 == before + [value] + Emit(samples, position + input, input, output, needRight)
            && |Emit(samples, position, input, output, needRight)|
                 == 1 + |Emit(samples, position + input, input, output, needRight)|
            && Pack(before + [value]) == Pack(before) + Pack([value])
  {
    PackAppend(before, [Interpolate(samples, position, output)]);
  }

  lemma EmitEnds(samples: seq<Sample>, position: nat, input: Rate, output: Rate, needRight: bool)
    requires samples == [] || !CanEmit(|samples|, position / output, needRight)
    ensures Emit(samples, position, input, output, needRight) == []
  {
    DivMono(0, position, output);
  }

  /** The samples that the loop has left behind are deleted and the position is rewound by as many. */
  function Settle(samples: seq<Sample>, position: nat, output: Rate): State {
    DivMod(position, output);
    var consumed := if position / output > 1 then position / output - 1 else 0;
    MulMono(consumed, position / output, output);
    MulMono(0, consumed, output);
    State(if consumed <= |samples| then samples[consumed..] else [], position - consumed * output)
  }

  /** The position after so many outputs. */
  function Advanced(position: nat, outputs: nat, input: Rate): nat {
    MulMono(0, outputs, input);
    position + outputs * input
  }

  lemma AdvancedNone(position: nat, input: Rate)
    ensures Advanced(position, 0, input) == position
  {}

  lemma AdvancedOne(position: nat, outputs: nat, input: Rate)
    ensures Advanced(position, outputs + 1, input) == Advanced(position, outputs, input) + input
  {
    assert (outputs + 1) * input == outputs * input + input;
  }

  function Produced(state: State, input: Rate, output: Rate, needRight: bool): (State, seq<Sample>) {
    var emitted := Emit(state.samples, state.position, input, output, needRight);
    (Settle(state.samples, Advanced(state.position, |emitted|, input), output), emitted)
  }

  function Processed(state: State, chunk: seq<Sample>, input: Rate, output: Rate): (State, seq<Sample>) {
    if input == output then
      (state, chunk)
    else
      Produced(state.(samples := state.samples + chunk), input, output, true)
  }

  function Flushed(state: State, input: Rate, output: Rate): seq<Sample> {
    Produced(state, input, output, false).1
  }

  /** All the output of one resampler fed the given chunks and then flushed. */
  function Streamed(state: State, chunks: seq<seq<Sample>>, input: Rate, output: Rate): seq<Sample>
    decreases |chunks|
  {
    if chunks == [] then
      Flushed(state, input, output)
    else
      var (state', emitted) := Processed(state, chunks[0], input, output);
      emitted + Streamed(state', chunks[1..], input, output)
  }

  // ---------------------------------------------------------------- the reference

  /**
    `value` is a nearest integer to the linear interpolation between the sample at or before `position / output`
    and the next one, the last one being held; of two nearest it is the even one.
   */
  ghost predicate IsInterpolated(stream: seq<Sample>, position: int, output: Rate, value: int) {
    var left, fraction := position / output, position % output;
    && 0 <= left < |stream|
    && var right := if left == |stream| - 1 then left else left + 1;
       var error := 2 * (value * output - (stream[left] * (output - fraction) + stream[right] * fraction));
       var bound: int := output;
       -bound <= error <= bound && (error == bound || error == -bound ==> value % 2 == 0)
  }

  lemma InterpolateIsNearest(stream: seq<Sample>, position: nat, output: Rate)
    requires position / output < |stream|
    ensures IsInterpolated(stream, position, output, Interpolate(stream, position, output))
  {
    DivMono(0, position, output);
    var left, fraction := position / output, position % output;
    var right := if left + 1 < |stream| then left + 1 else left;
    RoundHalfEvenNearest(stream[left] * (output - fraction) + stream[right] * fraction, output);
  }

  /** Whatever the object holds, the j-th sample that a call produces is interpolated `j` steps further on. */
  lemma {:induction false} EmitInterpolates(samples: seq<Sample>, position: nat, input: Rate, output: Rate, needRight: bool)
    ensures var emitted := Emit(samples, position, input, output, needRight);
            forall j :: 0 <= j < |emitted| ==> IsInterpolated(samples, position + j * input, output, emitted[j])
    decreases |Emit(samples, position, input, output, needRight)|
  {
    var emitted := Emit(samples, position, input, output, needRight);
    if emitted != [] {
      DivMono(0, position, output);
      InterpolateIsNearest(samples, position, output);
      EmitStep([], samples, position, input, output, needRight);
      EmitInterpolates(samples, position + input, input, output, needRight);
      forall j | 0 <= j < |emitted| ensures IsInterpolated(samples, position + j * input, output, emitted[j]) {
        if j > 0 {
          assert emitted[j] == Emit(samples, position + input, input, output, needRight)[j - 1];
          OneStepFurther(position, j, input);
        }
      }
    }
  }

  lemma OneStepFurther(position: nat, j: int, input: Rate)
    ensures position + j * input == (position + input) + (j - 1) * input
  {}

  /** How many outputs fall strictly before input sample `m`. */
  function Count(m: nat, input: Rate, output: Rate): nat {
    MulMono(0, m, output);
    CeilDiv(m * output, input)
  }

  function Output(stream: seq<Sample>, k: nat, input: Rate, output: Rate): Sample {
    MulMono(0, k, input);
    if k * input / output < |stream| then Interpolate(stream, k * input, output) else 0
  }

  /** Outputs `from .. to` of the whole stream. */
  function Outputs(stream: seq<Sample>, from: nat, to: nat, input: Rate, output: Rate): seq<Sample>
    requires from <= to
  {
    seq<Sample>(to - from, j requires 0 <= j => Output(stream, from + j, input, output))
  }

  function ClosedForm(stream: seq<Sample>, input: Rate, output: Rate): seq<Sample> {
    Outputs(stream, 0, Count(|stream|, input, output), input, output)
  }

  lemma CountIs(m: nat, input: Rate, output: Rate, k: nat)
    ensures k < Count(m, input, output) <==> k * input < m * output
    ensures k < Count(m, input, output) <==> k * input / output < m
  {
    MulMono(0, m, output);
    CeilDivCounts(m * output, input, k);
    DivLess(k * input, output, m);
  }

  /**
    The k-th output is interpolated at `k * input / output`, and there is one for each k for which that is before
    the end of the stream.
   */
  lemma ClosedFormInterpolates(stream: seq<Sample>, input: Rate, output: Rate)
    ensures var result := ClosedForm(stream, input, output);
            && (forall k: nat :: k < |result| <==> k * input < |stream| * output)
            && forall k :: 0 <= k < |result| ==> IsInterpolated(stream, k * input, output, result[k])
  {
    var result := ClosedForm(stream, input, output);
    forall k: nat ensures k < |result| <==> k * input < |stream| * output {
      CountIs(|stream|, input, output, k);
    }
    forall k | 0 <= k < |result| ensures IsInterpolated(stream, k * input, output, result[k]) {
      CountIs(|stream|, input, output, k);
      MulMono(0, k, input);
      InterpolateIsNearest(stream, k * input, output);
      assert result[k] == Output(stream, k, input, output);
    }
  }

  lemma CountMono(m: nat, n: nat, input: Rate, output: Rate)
    requires m <= n
    ensures Count(m, input, output) <= Count(n, input, output)
  {
    if Count(n, input, output) < Count(m, input, output) {
      CountIs(m, input, output, Count(n, input, output));
      CountIs(n, input, output, Count(n, input, output));
    }
  }

  // ---------------------------------------------------------------- the loop against the reference

  /** How far the loop may go over `n` input samples. */
  function Reach(n: nat, needRight: bool): nat {
    if needRight && n > 0 then n - 1 else n
  }

  /** A sample whose right neighbour has arrived is final: more input cannot change the output. */
  lemma OutputIsFinal(stream: seq<Sample>, more: seq<Sample>, k: nat, input: Rate, output: Rate)
    requires k < Count(Reach(|stream|, true), input, output)
    ensures Output(stream + more, k, input, output) == Output(stream, k, input, output)
  {
    MulMono(0, k, input);
    CountIs(Reach(|stream|, true), input, output, k);
    DivMono(0, k * input, output);
  }

  /** After `dropped` samples were deleted, index and phase relative to the rest mean the same output. */
  lemma InterpolateShift(stream: seq<Sample>, dropped: nat, position: nat, k: nat, input: Rate, output: Rate)
    requires dropped <= |stream|
    requires position + dropped * output == k * input
    requires position / output < |stream| - dropped
    ensures k * input / output == position / output + dropped
    ensures Interpolate(stream[dropped..], position, output) == Output(stream, k, input, output)
  {
    DivShift(position, output, dropped);
    DivMono(0, position, output);
    BetweenShift(stream, dropped, position / output, position % output, output);
  }

  lemma BetweenShift(stream: seq<Sample>, dropped: nat, left: nat, fraction: nat, output: Rate)
    requires dropped + left < |stream| && fraction < output
    ensures Between(stream[dropped..], left, fraction, output) == Between(stream, dropped + left, fraction, output)
  {
  }

  lemma {:induction false} EmitIsOutputs(stream: seq<Sample>, dropped: nat, position: nat, k: nat,
                                         input: Rate, output: Rate, needRight: bool)
    requires dropped <= |stream|
    requires position + dropped * output == k * input
    ensures var end := Count(Reach(|stream|, needRight), input, output);
            Emit(stream[dropped..], position, input, output, needRight)
              == Outputs(stream, k, if k <= end then end else k, input, output)
    decreases (|stream| - dropped) * output - position
  {
    var samples := stream[dropped..];
    var end := Count(Reach(|stream|, needRight), input, output);
    DivMono(0, position, output);
    DivLess(position, output, |samples|);
    DivShift(position, output, dropped);
    CountIs(Reach(|stream|, needRight), input, output, k);
    if CanEmit(|samples|, position / output, needRight) {
      InterpolateShift(stream, dropped, position, k, input, output);
      assert position + input + dropped * output == (k + 1) * input;
      EmitIsOutputs(stream, dropped, position + input, k + 1, input, output, needRight);
      assert k < end;
      assert Outputs(stream, k, end, input, output)
          == [Output(stream, k, input, output)] + Outputs(stream, k + 1, end, input, output);
    } else {
      assert end <= k;
    }
  }

  // ---------------------------------------------------------------- chunk invariance

  /** How many outputs are final once `stream` has been received. */
  function Settled(stream: seq<Sample>, input: Rate, output: Rate): nat {
    Count(Reach(|stream|, true), input, output)
  }

  /** The object keeps the tail of the stream, and its position is the exact phase of output `k`. */
  predicate AtOutput(stream: seq<Sample>, k: nat, state: State, input: Rate, output: Rate) {
    && |state.samples| <= |stream|
    && state.samples == stream[|stream| - |state.samples|..]
    && state.position + (|stream| - |state.samples|) * output == k * input
    && state.position / output <= 1
  }

  /** What holds between two calls once `stream` has been received. */
  ghost predicate InPhase(stream: seq<Sample>, state: State, input: Rate, output: Rate) {
    forall n: nat {:trigger Expose(n)} ::
      Expose(n) ==> AtOutput(stream, Settled(stream, input, output), state, input, output)
  }

  /** At most two samples are carried from one call to the next, whatever the state and the ratio. */
  lemma {:induction false} RetainsAtMostTwo(state: State, chunk: seq<Sample>, input: Rate, output: Rate)
    requires input != output
    ensures |Processed(state, chunk, input, output).0.samples| <= 2
  {
    var samples := state.samples + chunk;
    var end := EmitStopsNearTheEnd(samples, state.position, input, output);
    DivMono(0, end, output);
  }

  lemma AdvancedFirst(position: nat, outputs: nat, input: Rate)
    ensures Advanced(position, 1 + outputs, input) == Advanced(position + input, outputs, input)
  {
    AdvancedOne(position, outputs, input);
  }

  /** Where the loop stops, the next output needs a sample that has not arrived. */
  lemma {:induction false} EmitStopsNearTheEnd(samples: seq<Sample>, position: nat, input: Rate, output: Rate)
      returns (end: nat)
    ensures end == Advanced(position, |Emit(samples, position, input, output, true)|, input)
    ensures Stopped(samples, end, output)
    decreases |Emit(samples, position, input, output, true)|
  {
    DivMono(0, position, output);
    if CanEmit(|samples|, position / output, true) {
      EmitStep([], samples, position, input, output, true);
      end := EmitStopsNearTheEnd(samples, position + input, input, output);
      AdvancedFirst(position, |Emit(samples, position + input, input, output, true)|, input);
    } else {
      EmitEnds(samples, position, input, output, true);
      AdvancedNone(position, input);
      end := position;
    }
  }

  predicate Stopped(samples: seq<Sample>, end: nat, output: Rate) {
    DivMono(0, end, output);
    !CanEmit(|samples|, end / output, true)
  }

  /** Up to a ratio of three, the next output position is at most one sample beyond the stream. */
  lemma NextPositionIsNear(stream: seq<Sample>, input: Rate, output: Rate)
    requires input <= 3 * output
    ensures Settled(stream, input, output) * input / output <= |stream| + 1
  {
    var k := Settled(stream, input, output);
    if k > 0 {
      CountIs(Reach(|stream|, true), input, output, k - 1);
      assert k * input == (k - 1) * input + input;
      assert k * input < (Reach(|stream|, true) + 3) * output;
      DivLess(k * input, output, Reach(|stream|, true) + 3);
    } else {
      DivLess(0, output, 1);
    }
  }

  lemma SettleKeepsPhase(samples: seq<Sample>, position: nat, output: Rate)
    requires position / output <= |samples| + 1
    ensures var settled := Settle(samples, position, output);
            && |settled.samples| <= |samples|
            && settled.samples == samples[|samples| - |settled.samples|..]
            && settled.position + (|samples| - |settled.samples|) * output == position
            && settled.position / output <= 1
  {
    var settled := Settle(samples, position, output);
    var consumed := if position / output > 1 then position / output - 1 else 0;
    DivShift(settled.position, output, consumed);
  }

  /** Deleting consumed samples keeps the phase as long as the next position is near. */
  lemma SettleAtOutput(stream: seq<Sample>, dropped: nat, position: nat, k: nat, input: Rate, output: Rate)
    requires dropped <= |stream|
    requires position + dropped * output == k * input
    requires k * input / output <= |stream| + 1
    ensures AtOutput(stream, k, Settle(stream[dropped..], position, output), input, output)
  {
    DivShift(position, output, dropped);
    SettleKeepsPhase(stream[dropped..], position, output);
    var settled := Settle(stream[dropped..], position, output);
    assert settled.samples == stream[|stream| - |settled.samples|..];
    assert (|stream| - dropped - |settled.samples|) * output + dropped * output
        == (|stream| - |settled.samples|) * output;
  }

  lemma ProcessStep(stream: seq<Sample>, state: State, chunk: seq<Sample>, input: Rate, output: Rate)
    requires input != output && input <= 3 * output
    requires InPhase(stream, state, input, output)
    ensures var (state', emitted) := Processed(state, chunk, input, output);
            && InPhase(stream + chunk, state', input, output)
            && Settled(stream, input, output) <= Settled(stream + chunk, input, output)
            && emitted == Outputs(stream + chunk, Settled(stream, input, output),
                                  Settled(stream + chunk, input, output), input, output)
  {
    assert Expose(0);
    var whole := stream + chunk;
    CountMono(Reach(|stream|, true), Reach(|whole|, true), input, output);
    NextPositionIsNear(whole, input, output);
    ProcessTo(stream, state, chunk, Settled(stream, input, output), Settled(whole, input, output), input, output);
  }

  lemma ProcessTo(stream: seq<Sample>, state: State, chunk: seq<Sample>, k: nat, k': nat, input: Rate, output: Rate)
    requires input != output
    requires AtOutput(stream, k, state, input, output)
    requires k <= k' == Settled(stream + chunk, input, output)
    requires k' * input / output <= |stream + chunk| + 1
    ensures var (state', emitted) := Processed(state, chunk, input, output);
            && AtOutput(stream + chunk, k', state', input, output)
            && emitted == Outputs(stream + chunk, k, k', input, output)
  {
    var whole := stream + chunk;
    var dropped := |stream| - |state.samples|;
    var position := state.position + (k' - k) * input;
    assert state.samples + chunk == whole[dropped..];
    EmitIsOutputs(whole, dropped, state.position, k, input, output, true);
    PositionAfter(state.position, dropped * output, k, k', input);
    assert Processed(state, chunk, input, output).0 == Settle(whole[dropped..], position, output);
    SettleAtOutput(whole, dropped, position, k', input, output);
  }

  lemma PositionAfter(position: nat, offset: int, k: nat, k': nat, input: Rate)
    requires k <= k' && position + offset == k * input
    ensures position + (k' - k) * input >= 0
    ensures position + (k' - k) * input + offset == k' * input
  {
    MulMono(0, k' - k, input);
    assert (k' - k) * input == k' * input - k * input;
  }

  lemma FlushStep(stream: seq<Sample>, state: State, input: Rate, output: Rate)
    requires InPhase(stream, state, input, output)
    ensures Settled(stream, input, output) <= Count(|stream|, input, output)
    ensures Flushed(state, input, output)
         == Outputs(stream, Settled(stream, input, output), Count(|stream|, input, output), input, output)
  {
    assert Expose(0);
    CountMono(Reach(|stream|, true), |stream|, input, output);
    EmitIsOutputs(stream, |stream| - |state.samples|, state.position, Settled(stream, input, output),
                  input, output, false);
  }

  /** Outputs that were final before more input arrived are outputs of the longer stream. */
  lemma FinalOutputsStay(stream: seq<Sample>, more: seq<Sample>, to: nat, input: Rate, output: Rate)
    requires to <= Settled(stream, input, output)
    ensures Outputs(stream + more, 0, to, input, output) == Outputs(stream, 0, to, input, output)
  {
    forall k: nat | k < to
      ensures Output(stream + more, k, input, output) == Output(stream, k, input, output)
    {
      OutputIsFinal(stream, more, k, input, output);
    }
  }

  lemma OutputsJoin(stream: seq<Sample>, from: nat, middle: nat, to: nat, input: Rate, output: Rate)
    requires from <= middle <= to
    ensures Outputs(stream, from, middle, input, output) + Outputs(stream, middle, to, input, output)
         == Outputs(stream, from, to, input, output)
  {}

  /** Feeding the rest of the chunks completes the closed form of everything received. */
  lemma {:induction false} StreamedContinues(stream: seq<Sample>, state: State, chunks: seq<seq<Sample>>,
                                             input: Rate, output: Rate)
    requires input != output && input <= 3 * output
    requires InPhase(stream, state, input, output)
    ensures Outputs(stream, 0, Settled(stream, input, output), input, output)
            + Streamed(state, chunks, input, output)
         == ClosedForm(stream + Flatten(chunks), input, output)
    decreases |chunks|
  {
    var k := Settled(stream, input, output);
    if chunks == [] {
      FlushStep(stream, state, input, output);
      OutputsJoin(stream, 0, k, Count(|stream|, input, output), input, output);
      assert stream + Flatten(chunks) == stream;
    } else {
      var whole := stream + chunks[0];
      var (state', emitted) := Processed(state, chunks[0], input, output);
      ChunkExtends(stream, state, chunks[0], input, output);
      StreamedContinues(whole, state', chunks[1..], input, output);
      ConcatAssociates(stream, chunks[0], Flatten(chunks[1..]));
      ConcatAssociates(Outputs(stream, 0, k, input, output), emitted, Streamed(state', chunks[1..], input, output));
    }
  }

  /** One more chunk turns the outputs that were final into those that are final now. */
  lemma ChunkExtends(stream: seq<Sample>, state: State, chunk: seq<Sample>, input: Rate, output: Rate)
    requires input != output && input <= 3 * output
    requires InPhase(stream, state, input, output)
    ensures var (state', emitted) := Processed(state, chunk, input, output);
            var whole := stream + chunk;
            && InPhase(whole, state', input, output)
            && Outputs(stream, 0, Settled(stream, input, output), input, output) + emitted
               == Outputs(whole, 0, Settled(whole, input, output), input, output)
  {
    var whole := stream + chunk;
    ProcessStep(stream, state, chunk, input, output);
    FinalOutputsStay(stream, chunk, Settled(stream, input, output), input, output);
    OutputsJoin(whole, 0, Settled(stream, input, output), Settled(whole, input, output), input, output);
  }

  lemma StartsInPhase(input: Rate, output: Rate)
    ensures InPhase([], INITIAL, input, output)
    ensures Settled([], input, output) == 0
  {
    NothingSettled(input, output);
    StartsAtOutput(input, output);
    AtSettled([], 0, INITIAL, input, output);
  }

  lemma AtSettled(stream: seq<Sample>, k: nat, state: State, input: Rate, output: Rate)
    requires k == Settled(stream, input, output) && AtOutput(stream, k, state, input, output)
    ensures InPhase(stream, state, input, output)
  {}

  lemma NothingSettled(input: Rate, output: Rate)
    ensures Settled([], input, output) == 0
  {
    CountIs(0, input, output, 0);
  }

  lemma StartsAtOutput(input: Rate, output: Rate)
    ensures AtOutput([], 0, INITIAL, input, output)
  {
    assert 0 * output == 0 && 0 * input == 0;
    DivLess(0, output, 1);
  }

  /** At equal rates the closed form is the stream itself. */
  lemma ClosedFormAtEqualRates(stream: seq<Sample>, rate: Rate)
    ensures ClosedForm(stream, rate, rate) == stream
  {
    CountIs(|stream|, rate, rate, |stream|);
    if |stream| > 0 { CountIs(|stream|, rate, rate, |stream| - 1); }
    forall k: nat | k < |stream|
      ensures Output(stream, k, rate, rate) == stream[k]
    {
      OutputAtEqualRates(stream, k, rate);
    }
  }

  lemma OutputAtEqualRates(stream: seq<Sample>, k: nat, rate: Rate)
    requires k < |stream|
    ensures Output(stream, k, rate, rate) == stream[k]
  {
    DivWhole(k, rate);
    BetweenAtSample(stream, k, rate);
  }

  lemma DivWhole(k: int, d: Rate)
    ensures k * d / d == k && k * d % d == 0
  {
    DivLess(0, d, 1);
    DivMono(0, 0, d);
    DivShift(0, d, k);
  }

  lemma BetweenAtSample(samples: seq<Sample>, left: nat, output: Rate)
    requires left < |samples|
    ensures Between(samples, left, 0, output) == samples[left]
  {
    DivWhole(samples[left], output);
  }

  lemma {:induction false} StreamedAtEqualRates(chunks: seq<seq<Sample>>, rate: Rate)
    ensures Streamed(INITIAL, chunks, rate, rate) == Flatten(chunks)
    decreases |chunks|
  {
    if chunks != [] {
      StreamedAtEqualRates(chunks[1..], rate);
    }
  }

  /** Any way of cutting a stream into chunks yields the closed form of the stream. */
  ghost predicate ChunkInvariant(input: Rate, output: Rate) {
    forall chunks :: Streamed(INITIAL, chunks, input, output) == ClosedForm(Flatten(chunks), input, output)
  }

  lemma StreamedIsClosedForm(chunks: seq<seq<Sample>>, input: Rate, output: Rate)
    requires input <= 3 * output
    ensures Streamed(INITIAL, chunks, input, output) == ClosedForm(Flatten(chunks), input, output)
  {
    if input == output {
      StreamedAtEqualRates(chunks, input);
      ClosedFormAtEqualRates(Flatten(chunks), input);
    } else {
      StartsInPhase(input, output);
      StreamedContinues([], INITIAL, chunks, input, output);
      assert [] + Flatten(chunks) == Flatten(chunks);
    }
  }

  lemma ProcessedFromStart(stream: seq<Sample>, input: Rate, output: Rate)
    requires input != output
    ensures Settled(stream, input, output) * input >= 0
    ensures var k := Settled(stream, input, output);
            Processed(INITIAL, stream, input, output)
              == (Settle(stream, k * input, output), Outputs(stream, 0, k, input, output))
  {
    MulMono(0, Settled(stream, input, output), input);
    assert stream[0..] == stream && [] + stream == stream;
    EmitIsOutputs(stream, 0, 0, 0, input, output, true);
  }

  lemma FlushedAfter(stream: seq<Sample>, k: nat, input: Rate, output: Rate)
    requires k == Settled(stream, input, output) && k * input >= 0
    ensures k <= Count(|stream|, input, output)
    ensures Flushed(Settle(stream, k * input, output), input, output)
         == Outputs(stream, k, Count(|stream|, input, output), input, output)
  {
    CountMono(Reach(|stream|, true), |stream|, input, output);
    if k * input / output <= |stream| + 1 {
      FlushedNear(stream, k, input, output);
    } else {
      CountIs(|stream|, input, output, k);
      SettleFallsShort(stream, k * input, output);
    }
  }

  lemma FlushedNear(stream: seq<Sample>, k: nat, input: Rate, output: Rate)
    requires k == Settled(stream, input, output) && k * input >= 0
    requires k * input / output <= |stream| + 1
    ensures k <= Count(|stream|, input, output)
    ensures Flushed(Settle(stream, k * input, output), input, output)
         == Outputs(stream, k, Count(|stream|, input, output), input, output)
  {
    assert stream[0..] == stream;
    SettleAtOutput(stream, 0, k * input, k, input, output);
    FlushStep(stream, Settle(stream, k * input, output), input, output);
  }

  /** One chunk and one flush meet the closed form at every ratio, even where chunking does not. */
  lemma OneShotIsClosedForm(stream: seq<Sample>, input: Rate, output: Rate)
    ensures Streamed(INITIAL, [stream], input, output) == ClosedForm(stream, input, output)
  {
    assert [stream][1..] == [];
    if input == output {
      ClosedFormAtEqualRates(stream, input);
    } else {
      var k := Settled(stream, input, output);
      ProcessedFromStart(stream, input, output);
      FlushedAfter(stream, k, input, output);
      OutputsJoin(stream, 0, k, Count(|stream|, input, output), input, output);
    }
  }

  /** Hence chunked and one-shot use agree wherever chunking is invariant. */
  lemma ChunkedIsOneShot(chunks: seq<seq<Sample>>, input: Rate, output: Rate)
    requires input <= 3 * output
    ensures Streamed(INITIAL, chunks, input, output) == Streamed(INITIAL, [Flatten(chunks)], input, output)
  {
    StreamedIsClosedForm(chunks, input, output);
    OneShotIsClosedForm(Flatten(chunks), input, output);
  }

  /** Beyond a ratio of three some step of the position crosses at least four input samples. */
  lemma {:induction false} BigStep(k: nat, input: Rate, output: Rate) returns (step: nat)
    requires k * input / output > 3 * k
    ensures (step + 1) * input / output >= step * input / output + 4
  {
    step := 0;
    if k == 0 {
      DivLess(0, output, 1);
      assert false;
    } else if k * input / output >= (k - 1) * input / output + 4 {
      step := k - 1;
    } else {
      step := BigStep(k - 1, input, output);
    }
  }

  lemma AverageStep(input: Rate, output: Rate)
    requires input > 3 * output
    ensures output * input / output > 3 * output
  {
    DivLess(0, output, 1);
    DivShift(0, output, input);
  }

  function Silence(n: nat): seq<Sample> {
    seq<Sample>(n, _ => 0)
  }

  /** A first chunk that ends just before a big step: the delete falls short and phase is lost. */
  lemma FirstChunkLosesPhase(step: nat, input: Rate, output: Rate)
    requires input != output
    requires (step + 1) * input / output >= step * input / output + 4
    ensures step * input / output >= 0
    ensures var (state, emitted) := Processed(INITIAL, Silence(step * input / output + 2), input, output);
            |emitted| == step + 1 && state.samples == [] && state.position / output == 1
  {
    MulMono(0, step, input);
    DivMono(0, step * input, output);
    var n := step * input / output + 2;
    CountIs(n - 1, input, output, step);
    CountIs(n - 1, input, output, step + 1);
    ProcessedFromStart(Silence(n), input, output);
    SettleFallsShort(Silence(n), (step + 1) * input, output);
  }

  lemma SettleFallsShort(samples: seq<Sample>, position: nat, output: Rate)
    requires position / output >= |samples| + 2
    ensures var state := Settle(samples, position, output);
            state.samples == [] && state.position / output == 1
  {
    DivShift(position, output, -(position / output - 1));
  }

  /** Two more samples then give one output too many. */
  lemma SecondChunkOverruns(state: State, input: Rate, output: Rate)
    requires input != output
    requires state.samples == [] && state.position / output == 1
    ensures |Streamed(state, [Silence(2)], input, output)| >= 1
  {
    assert [] + Silence(2) == Silence(2);
    assert [Silence(2)][1..] == [];
    assert Emit(Silence(2), state.position, input, output, true) == [];
    var (state', emitted) := Processed(state, Silence(2), input, output);
    assert state' == State(Silence(2), state.position);
  }

  lemma ChunkingFails(input: Rate, output: Rate) returns (chunks: seq<seq<Sample>>)
    requires input > 3 * output
    ensures |Streamed(INITIAL, chunks, input, output)| > |ClosedForm(Flatten(chunks), input, output)|
  {
    AverageStep(input, output);
    var step := BigStep(output, input, output);
    FirstChunkLosesPhase(step, input, output);
    var n := step * input / output + 2;
    chunks := [Silence(n), Silence(2)];
    var (state, emitted) := Processed(INITIAL, Silence(n), input, output);
    SecondChunkOverruns(state, input, output);
    assert chunks[1..] == [Silence(2)] && [Silence(2)][1..] == [];
    assert Flatten(chunks) == Silence(n) + Silence(2);
    CountIs(n + 2, input, output, step + 1);
  }

  /** The exact condition for the stream to be independent of how it is cut. */
  lemma ChunkInvariantExactly(input: Rate, output: Rate)
    ensures ChunkInvariant(input, output) <==> input <= 3 * output
  {
    if input <= 3 * output {
      forall chunks
        ensures Streamed(INITIAL, chunks, input, output) == ClosedForm(Flatten(chunks), input, output)
      {
        StreamedIsClosedForm(chunks, input, output);
      }
    } else {
      var chunks := ChunkingFails(input, output);
    }
  }

  // ---------------------------------------------------------------- the object

  class Pcm16MonoStreamResampler {
    const inputRate: Rate
    const outputRate: Rate
    var samples: seq<Sample>
    var position: nat

    ghost function Abstract(): State
      reads this
    {
      State(samples, position)
    }

    constructor (inputRate: Rate, outputRate: Rate)
      ensures this.inputRate == inputRate && this.outputRate == outputRate
      ensures Abstract() == INITIAL
    {
      this.inputRate, this.outputRate := inputRate, outputRate;
      samples, position := [], 0;
    }

    method Process(pcm: seq<Byte>) returns (result: Result<seq<Byte>>)
      modifies this
      ensures |pcm| % 2 != 0 ==>
        result == Err("PCM16LE data length must be divisible by two") && Abstract() == old(Abstract())
      ensures |pcm| % 2 == 0 ==>
        var (state, emitted) := Processed(old(Abstract()), Unpack(pcm), inputRate, outputRate);
        result == Ok(Pack(emitted)) && Abstract() == state
    {
      if |pcm| % 2 != 0 {
        return Err("PCM16LE data length must be divisible by two");
      }
      if inputRate == outputRate {
        PackUnpack(pcm);
        return Ok(pcm);
      }
      samples := samples + Unpack(pcm);
      var output := Produce(true);
      return Ok(output);
    }

    method Flush() returns (output: seq<Byte>)
      modifies this
      ensures output == Pack(Flushed(old(Abstract()), inputRate, outputRate))
      ensures Abstract() == INITIAL
    {
      output := Produce(false);
      samples, position := [], 0;
    }

    method Produce(needRight: bool) returns (output: seq<Byte>)
      modifies this
      ensures var (state, emitted) := Produced(old(Abstract()), inputRate, outputRate, needRight);
              output == Pack(emitted) && Abstract() == state
    {
      output := EmitAll(needRight);
      DropConsumed();
    }

    /** The production loop proper: one output sample a round, until the next one lacks a neighbour. */
    method EmitAll(needRight: bool) returns (output: seq<Byte>)
      modifies this`position
      ensures var emitted := Emit(samples, old(position), inputRate, outputRate, needRight);
              output == Pack(emitted) && position == Advanced(old(position), |emitted|, inputRate)
    {
      output := [];
      ghost var emitted: seq<Sample> := [];
      AdvancedNone(position, inputRate);
      while samples != []
        invariant position == Advanced(old(position), |emitted|, inputRate)
        invariant output == Pack(emitted)
        invariant emitted + Emit(samples, position, inputRate, outputRate, needRight)
               == Emit(samples, old(position), inputRate, outputRate, needRight)
        decreases |Emit(samples, position, inputRate, outputRate, needRight)|
      {
        DivMono(0, position, outputRate);
        DivLess(position, outputRate, |samples|);
        var left := position / outputRate;
        if left >= |samples| {
          break;
        }
        if left + 1 >= |samples| && needRight {
          break;
        }
        var value := Interpolate(samples, position, outputRate);
        EmitStep(emitted, samples, position, inputRate, outputRate, needRight);
        AdvancedOne(old(position), |emitted|, inputRate);
        output := output + Pack([value]);
        emitted := emitted + [value];
        position := position + inputRate;
      }
      EmitEnds(samples, position, inputRate, outputRate, needRight);
      assert emitted == Emit(samples, old(position), inputRate, outputRate, needRight);
    }

    method DropConsumed()
      modifies this
      ensures Abstract() == Settle(old(samples), old(position), outputRate)
    {
      var left := position / outputRate;
      DivMod(position, outputRate);
      var consumed := if left > 1 then left - 1 else 0;
      if consumed > 0 {
        MulMono(consumed, left, outputRate);
        samples := if consumed <= |samples| then samples[consumed..] else [];
        position := position - consumed * outputRate;
      }
    }
  }

  /** The result as bytes: for each output position before the end, the sample interpolated there. */
  ghost predicate IsResampled(pcm: seq<Byte>, result: seq<Byte>, inputRate: int, outputRate: int) {
    && inputRate > 0 && outputRate > 0 && |pcm| % 2 == 0 && |result| % 2 == 0
    && var stream, outputs := Unpack(pcm), Unpack(result);
       && (forall k: nat :: k < |outputs| <==> k * inputRate < |stream| * outputRate)
       && forall k :: 0 <= k < |outputs| ==> IsInterpolated(stream, k * inputRate, outputRate, outputs[k])
  }

  /** The module-level helper: one resampler, one chunk, one flush. */
  method ResamplePcm16Mono(pcm: seq<Byte>, inputRate: int, outputRate: int) returns (result: Result<seq<Byte>>)
    ensures inputRate <= 0 || outputRate <= 0 ==> result == Err("sample rates must be positive")
    ensures inputRate > 0 && outputRate > 0 && |pcm| % 2 != 0 ==>
      result == Err("PCM16LE data length must be divisible by two")
    ensures inputRate > 0 && outputRate > 0 && |pcm| % 2 == 0 ==>
      result == Ok(Pack(ClosedForm(Unpack(pcm), inputRate, outputRate)))
    ensures result.Ok? ==> IsResampled(pcm, result.value, inputRate, outputRate)
  {
    if inputRate <= 0 || outputRate <= 0 {
      return Err("sample rates must be positive");
    }
    var resampler := new Pcm16MonoStreamResampler(inputRate, outputRate);
    var head := resampler.Process(pcm);
    if head.Err? {
      return head;
    }
    ghost var state := Processed(INITIAL, Unpack(pcm), inputRate, outputRate);
    var tail := resampler.Flush();
    OneShotIsClosedForm(Unpack(pcm), inputRate, outputRate);
    assert [Unpack(pcm)][1..] == [];
    PackAppend(state.1, Flushed(state.0, inputRate, outputRate));
    ClosedFormInterpolates(Unpack(pcm), inputRate, outputRate);
    UnpackPack(ClosedForm(Unpack(pcm), inputRate, outputRate));
    return Ok(head.value + tail);
  }
}

/**
  The PCM discontinuity detector and its per-stage state.

  Samples come grouped in frames of one sample per channel.  Magnitudes are kept as integers out of the full
  scale of 32768, a power of two, so comparing them with the thresholds is exact.  Times are not: positions
  become milliseconds in double precision, and whether two of them are the dedup window apart is decided there.
 */
module Discontinuity {
  import opened Common
  import opened Pcm16
  import opened Doubles

  type Frame = seq<Sample>

  type Positive = n: int | n > 0 witness 1

  const FULL_SCALE := 32768

  /** A suspicious step at a frame and channel. */
  datatype Hit = Hit(frame: nat, magnitude: nat, channel: nat)

  function Size(x: int): nat { if x < 0 then -x else x }

  function Jump(previous: int, current: int): nat { Size(current - previous) }

  function Larger(a: nat, b: nat): nat { if a < b then b else a }

  /** At least a quarter of full scale, and at least one of the samples at two percent of it. */
  predicate Suspicious(previous: Sample, current: Sample) {
    && 4 * Jump(previous, current) >= FULL_SCALE
    && 50 * Larger(Size(current), Size(previous)) >= FULL_SCALE
  }

  /** The signal-level condition never decides: a step that large implies a sample that large. */
  lemma SignalLevelIsImplied(previous: Sample, current: Sample)
    ensures Suspicious(previous, current) <==> 4 * Jump(previous, current) >= FULL_SCALE
  {}

  /** So a step is suspicious exactly when the samples are 8192 or more apart, and its magnitude is that distance. */
  lemma SuspiciousIs(previous: Sample, current: Sample)
    ensures Suspicious(previous, current) <==> current - previous >= 8192 || previous - current >= 8192
    ensures Jump(previous, current) == if previous < current then current - previous else previous - current
  {}

  /** All frames, and the frame carried over if there is one, have the same number of channels. */
  ghost predicate Uniform(frames: seq<Frame>, carried: Option<Frame>, channels: nat) {
    && channels > 0
    && (forall i :: 0 <= i < |frames| ==> |frames[i]| == channels)
    && (carried.Some? ==> |carried.value| == channels)
  }

  function PreviousFrame(frames: seq<Frame>, carried: Option<Frame>, frame: nat): Option<Frame>
    requires frame < |frames|
  {
    if frame > 0 then Some(frames[frame - 1]) else carried
  }

  ghost predicate IsHit(frames: seq<Frame>, carried: Option<Frame>, channels: nat, hit: Hit)
    requires Uniform(frames, carried, channels)
  {
    && hit.frame < |frames| && hit.channel < channels
    && var previous := PreviousFrame(frames, carried, hit.frame);
       && previous.Some?
       && var a, b := previous.value[hit.channel], frames[hit.frame][hit.channel];
          Suspicious(a, b) && hit.magnitude == Jump(a, b)
  }

  predicate Earlier(a: Hit, b: Hit) {
    a.frame < b.frame || (a.frame == b.frame && a.channel < b.channel)
  }

  /** `best` is the strongest hit, and the earliest of the strongest ones. */
  ghost predicate IsStrongest(frames: seq<Frame>, carried: Option<Frame>, channels: nat, best: Option<Hit>)
    requires Uniform(frames, carried, channels)
  {
    match best
    case None => forall hit :: !IsHit(frames, carried, channels, hit)
    case Some(top) =>
      && IsHit(frames, carried, channels, top)
      && forall hit :: IsHit(frames, carried, channels, hit) && hit != top ==>
           hit.magnitude < top.magnitude || (hit.magnitude == top.magnitude && Earlier(top, hit))
  }

  /** Among the positions before (`frame`, `channel`). */
  ghost predicate StrongestBefore(frames: seq<Frame>, carried: Option<Frame>, channels: nat, best: Option<Hit>,
                                  frame: nat, channel: nat)
    requires Uniform(frames, carried, channels)
  {
    var limit := Hit(frame, 0, channel);
    && (best.Some? ==> IsHit(frames, carried, channels, best.value) && Earlier(best.value, limit))
    && forall hit :: IsHit(frames, carried, channels, hit) && Earlier(hit, limit) ==>
         && best.Some?
         && (hit == best.value || hit.magnitude < best.value.magnitude
             || (hit.magnitude == best.value.magnitude && Earlier(best.value, hit)))
  }

  /** Looking at one more position, keeping what is strictly stronger. */
  function Consider(frames: seq<Frame>, carried: Option<Frame>, best: Option<Hit>, frame: nat, channel: nat): Option<Hit>
    requires frame < |frames| && channel < |frames[frame]|
    requires var previous := PreviousFrame(frames, carried, frame); previous.Some? ==> channel < |previous.value|
  {
    var previous := PreviousFrame(frames, carried, frame);
    if previous.None? then best
    else
      var a, b := previous.value[channel], frames[frame][channel];
      if Suspicious(a, b) && (best.None? || Jump(a, b) > best.value.magnitude) then Some(Hit(frame, Jump(a, b), channel))
      else best
  }

  lemma ConsiderKeepsStrongest(frames: seq<Frame>, carried: Option<Frame>, channels: nat, best: Option<Hit>,
                               frame: nat, channel: nat)
    requires Uniform(frames, carried, channels) && frame < |frames| && channel < channels
    requires StrongestBefore(frames, carried, channels, best, frame, channel)
    ensures StrongestBefore(frames, carried, channels, Consider(frames, carried, best, frame, channel), frame, channel + 1)
  {
    var best' := Consider(frames, carried, best, frame, channel);
    forall hit | IsHit(frames, carried, channels, hit) && Earlier(hit, Hit(frame, 0, channel + 1))
      ensures best'.Some?
      ensures hit == best'.value || hit.magnitude < best'.value.magnitude
           || (hit.magnitude == best'.value.magnitude && Earlier(best'.value, hit))
    {
      if !Earlier(hit, Hit(frame, 0, channel)) {
        assert hit.frame == frame && hit.channel == channel;
      }
    }
  }

  method Detect(frames: seq<Frame>, carried: Option<Frame>, channels: nat) returns (strongest: Option<Hit>)
    requires Uniform(frames, carried, channels)
    ensures IsStrongest(frames, carried, channels, strongest)
  {
    strongest := None;
    for frame := 0 to |frames|
      invariant StrongestBefore(frames, carried, channels, strongest, frame, 0)
    {
      for channel := 0 to channels
        invariant StrongestBefore(frames, carried, channels, strongest, frame, channel)
      {
        ConsiderKeepsStrongest(frames, carried, channels, strongest, frame, channel);
        strongest := Consider(frames, carried, strongest, frame, channel);
      }
      NextFrame(frames, carried, channels, strongest, frame);
    }
  }

  lemma NextFrame(frames: seq<Frame>, carried: Option<Frame>, channels: nat, best: Option<Hit>, frame: nat)
    requires Uniform(frames, carried, channels)
    requires StrongestBefore(frames, carried, channels, best, frame, channels)
    ensures StrongestBefore(frames, carried, channels, best, frame + 1, 0)
  {
    forall hit | IsHit(frames, carried, channels, hit) && Earlier(hit, Hit(frame + 1, 0, 0))
      ensures Earlier(hit, Hit(frame, 0, channels))
    {}
  }

  // ---------------------------------------------------------------- independence of chunking

  lemma StrongestIsUnique(frames: seq<Frame>, carried: Option<Frame>, channels: nat, a: Option<Hit>, b: Option<Hit>)
    requires Uniform(frames, carried, channels)
    requires IsStrongest(frames, carried, channels, a) && IsStrongest(frames, carried, channels, b)
    ensures a == b
  {}

  function LastFrame(frames: seq<Frame>, carried: Option<Frame>): Option<Frame> {
    if frames == [] then carried else Some(frames[|frames| - 1])
  }

  function Shift(hit: Option<Hit>, frames: nat): Option<Hit> {
    if hit.None? then None else Some(hit.value.(frame := hit.value.frame + frames))
  }

  /** The stronger of two hits, the first one if they are equal. */
  function Stronger(first: Option<Hit>, second: Option<Hit>): Option<Hit> {
    if second.Some? && (first.None? || second.value.magnitude > first.value.magnitude) then second else first
  }

  /** A hit of the whole is a hit of one of the parts, at its own offset. */
  lemma HitOfParts(a: seq<Frame>, b: seq<Frame>, carried: Option<Frame>, channels: nat, hit: Hit)
    requires Uniform(a, carried, channels) && Uniform(b, LastFrame(a, carried), channels)
    ensures Uniform(a + b, carried, channels)
    ensures hit.frame < |a| ==> (IsHit(a + b, carried, channels, hit) <==> IsHit(a, carried, channels, hit))
    ensures hit.frame >= |a| ==>
      (IsHit(a + b, carried, channels, hit) <==>
        IsHit(b, LastFrame(a, carried), channels, hit.(frame := hit.frame - |a|)))
  {
    if hit.frame >= |a| && hit.frame < |a + b| {
      assert (a + b)[hit.frame] == b[hit.frame - |a|];
      assert PreviousFrame(a + b, carried, hit.frame) == PreviousFrame(b, LastFrame(a, carried), hit.frame - |a|);
    }
  }

  lemma StrongestOfParts(a: seq<Frame>, b: seq<Frame>, carried: Option<Frame>, channels: nat,
                         first: Option<Hit>, second: Option<Hit>)
    requires Uniform(a, carried, channels) && Uniform(b, LastFrame(a, carried), channels)
    requires IsStrongest(a, carried, channels, first)
    requires IsStrongest(b, LastFrame(a, carried), channels, second)
    ensures Uniform(a + b, carried, channels)
    ensures IsStrongest(a + b, carried, channels, Stronger(first, Shift(second, |a|)))
  {
    var best := Stronger(first, Shift(second, |a|));
    HitOfParts(a, b, carried, channels, Hit(0, 0, 0));
    forall hit | IsHit(a + b, carried, channels, hit)
      ensures best.Some?
      ensures hit == best.value || hit.magnitude < best.value.magnitude
           || (hit.magnitude == best.value.magnitude && Earlier(best.value, hit))
    {
      HitOfParts(a, b, carried, channels, hit);
      if hit.frame >= |a| {
        assert IsHit(b, LastFrame(a, carried), channels, hit.(frame := hit.frame - |a|));
      }
    }
    if best.Some? {
      HitOfParts(a, b, carried, channels, best.value);
      if best == Shift(second, |a|) && second.Some? {
        assert best.value.(frame := best.value.frame - |a|) == second.value;
      }
    }
  }

  // ---------------------------------------------------------------- the state of one stage

  /** What is kept of a stage between chunks; an empty `last` means that no frame has been seen yet. */
  datatype Stage = Stage(rate: Positive, channels: nat, last: Option<Frame>, offset: nat, incident: Option<nat>)

  /** `position / sample_rate_hz * 1000.0`, rounded twice. */
  function MediaTime(position: nat, rate: Positive): real {
    Double(Double(position as real / rate as real) * 1000.0)
  }

  const DEDUP_MS := 5.0

  /** Whether position `at` is at least the dedup window after `last`, as the subtraction and comparison have it. */
  predicate Apart(last: nat, at: nat, rate: Positive) {
    Double(MediaTime(at, rate) - MediaTime(last, rate)) >= DEDUP_MS
  }

  lemma ApartIsMonotone(last: nat, at: nat, earlier: nat, later: nat, rate: Positive)
    requires Apart(last, at, rate) && earlier <= last && at <= later
    ensures Apart(earlier, later, rate)
  {
    MediaTimeIsMonotone(earlier, last, rate);
    MediaTimeIsMonotone(at, later, rate);
    DoubleMonotone(MediaTime(at, rate) - MediaTime(last, rate), MediaTime(later, rate) - MediaTime(earlier, rate));
  }

  lemma MediaTimeIsMonotone(a: nat, b: nat, rate: Positive)
    requires a <= b
    ensures MediaTime(a, rate) <= MediaTime(b, rate)
  {
    QuotientIsMonotone(a as real, b as real, rate as real);
    DoubleMonotone(a as real / rate as real, b as real / rate as real);
    DoubleMonotone(Double(a as real / rate as real) * 1000.0, Double(b as real / rate as real) * 1000.0);
  }

  lemma QuotientIsMonotone(a: real, b: real, r: real)
    requires a <= b && r > 0.0
    ensures a / r <= b / r
  {}

  /** Far from the limits of double precision: at 48 kHz, most of a year of audio. */
  predicate Precise(position: nat, rate: Positive) {
    6000 * position + 5 * rate < 0x20_0000_0000_0000
  }

  /** Every position but the one exactly at the window is decided as by exact arithmetic. */
  lemma ApartOffTheBoundary(last: nat, at: nat, rate: Positive)
    requires last <= at && Precise(at, rate)
    ensures (at - last) * 1000 > 5 * rate ==> Apart(last, at, rate)
    ensures (at - last) * 1000 < 5 * rate ==> !Apart(last, at, rate)
  {
    var gap := MediaTime(at, rate) - MediaTime(last, rate);
    MediaTimeIsNear(last, rate);
    MediaTimeIsNear(at, rate);
    DoubleIsNear(gap);
    var start, end, frame := InSeconds(last, at, rate);
    Decided(start, end, frame, gap, Double(gap));
  }

  /** Positions in seconds, of which one frame takes `frame`; the gap is a whole number of frames. */
  lemma InSeconds(last: nat, at: nat, rate: Positive) returns (start: real, end: real, frame: real)
    requires last <= at && Precise(at, rate)
    ensures start == last as real / rate as real && end == at as real / rate as real
    ensures 0.0 <= start <= end && frame > 0.0 && 6000.0 * end + 5.0 + frame <= TWO_53 * frame
    ensures (at - last) * 1000 > 5 * rate ==> 1000.0 * end - 1000.0 * start >= 5.0 + frame
    ensures (at - last) * 1000 < 5 * rate ==> 1000.0 * end - 1000.0 * start <= 5.0 - frame
  {
    frame := OneFrame(rate);
    start := Position(last, rate, frame);
    end := Position(at, rate, frame);
    Divided(last as real, at as real, rate as real, frame, start, end);
  }

  lemma OneFrame(rate: Positive) returns (frame: real)
    ensures frame > 0.0 && rate as real * frame == 1.0
  {
    frame := 1.0 / rate as real;
  }

  lemma Position(n: nat, rate: Positive, frame: real) returns (seconds: real)
    requires frame > 0.0 && rate as real * frame == 1.0
    ensures seconds == n as real / rate as real == n as real * frame
    ensures seconds >= 0.0
  {
    seconds := n as real * frame;
    ProductOrder(n as real, frame);
    assert seconds * rate as real == n as real * (rate as real * frame);
  }

  lemma Divided(l: real, a: real, r: real, frame: real, start: real, end: real)
    requires r * frame == 1.0 && frame > 0.0 && start == l * frame && end == a * frame
    ensures l <= a ==> start <= end
    ensures 6000.0 * a + 5.0 * r + 1.0 <= TWO_53 ==> 6000.0 * end + 5.0 + frame <= TWO_53 * frame
    ensures 1000.0 * (a - l) >= 5.0 * r + 1.0 ==> 1000.0 * end - 1000.0 * start >= 5.0 + frame
    ensures 1000.0 * (a - l) <= 5.0 * r - 1.0 ==> 1000.0 * end - 1000.0 * start <= 5.0 - frame
  {
    ProductOrder(a - l, frame);
    ProductOrder(TWO_53 - 6000.0 * a - 5.0 * r - 1.0, frame);
    ProductOrder(1000.0 * a - 1000.0 * l - 5.0 * r - 1.0, frame);
    ProductOrder(5.0 * r - 1.0 - (1000.0 * a - 1000.0 * l), frame);
    Spread(l, a, r, frame);
  }

  lemma ProductOrder(x: real, frame: real)
    requires frame > 0.0
    ensures x >= 0.0 ==> x * frame >= 0.0
  {}

  lemma Spread(l: real, a: real, r: real, frame: real)
    requires r * frame == 1.0
    ensures (a - l) * frame == a * frame - l * frame
    ensures (TWO_53 - 6000.0 * a - 5.0 * r - 1.0) * frame == TWO_53 * frame - 6000.0 * (a * frame) - 5.0 - frame
    ensures (1000.0 * a - 1000.0 * l - 5.0 * r - 1.0) * frame == 1000.0 * (a * frame) - 1000.0 * (l * frame) - 5.0 - frame
    ensures (5.0 * r - 1.0 - (1000.0 * a - 1000.0 * l)) * frame
         == 5.0 - frame - (1000.0 * (a * frame) - 1000.0 * (l * frame))
  {}

  lemma Decided(last: real, at: real, frame: real, gap: real, rounded: real)
    requires 0.0 <= last <= at && frame > 0.0 && 6000.0 * at + 5.0 + frame <= TWO_53 * frame
    requires Doubles.Abs(gap - (1000.0 * at - 1000.0 * last)) * TWO_53 <= 6000.0 * at
    requires Doubles.Abs(rounded - gap) * TWO_53 <= Doubles.Abs(gap)
    ensures 1000.0 * at - 1000.0 * last >= 5.0 + frame ==> rounded >= 5.0
    ensures 1000.0 * at - 1000.0 * last <= 5.0 - frame ==> rounded < 5.0
  {
  }

  /** Two roundings put the time off by at most three parts in 2^53. */
  lemma MediaTimeIsNear(position: nat, rate: Positive)
    ensures var exact := position as real / rate as real;
            Doubles.Abs(MediaTime(position, rate) - 1000.0 * exact) * TWO_53 <= 3000.0 * exact
  {
    var exact := position as real / rate as real;
    DoubleIsNear(exact);
    DoubleIsNear(Double(exact) * 1000.0);
    TwoRoundings(exact, Double(exact), MediaTime(position, rate));
  }

  lemma TwoRoundings(exact: real, first: real, second: real)
    requires exact >= 0.0
    requires Doubles.Abs(first - exact) * TWO_53 <= Doubles.Abs(exact)
    requires Doubles.Abs(second - first * 1000.0) * TWO_53 <= Doubles.Abs(first * 1000.0)
    ensures Doubles.Abs(second - 1000.0 * exact) * TWO_53 <= 3000.0 * exact
  {
  }

  /** Exactly at the window the roundings decide, either way. */
  lemma TheBoundaryGoesEitherWay()
    ensures (40 - 0) * 1000 == 5 * 8000 && Apart(0, 40, 8000)
    ensures (1001 - 961) * 1000 == 5 * 8000 && !Apart(961, 1001, 8000)
  {
    Powers();
    MediaTimeAt40();
    DoubleIs(5.0, 50, 1125899906842624.0, 5629499534213120);
    MediaTimeAt961();
    MediaTimeAt1001();
    DoubleIs(351843720888319.0 / 70368744177664.0, 50, 1125899906842624.0, 5629499534213104);
  }

  lemma MediaTimeAt40()
    ensures MediaTime(40, 8000) == 5.0
  {
    Powers();
    DoubleIs(40.0 / 8000.0, 60, 1152921504606846976.0, 5764607523034235);
    DoubleIs(5764607523034235.0 / 1152921504606846976.0 * 1000.0, 50, 1125899906842624.0, 5629499534213120);
  }

  lemma MediaTimeAt961()
    ensures MediaTime(961, 8000) == 120.125
  {
    Powers();
    DoubleIs(961.0 / 8000.0, 56, 72057594037927936.0, 8655918483806093);
    DoubleIs(8655918483806093.0 / 72057594037927936.0 * 1000.0, 46, 70368744177664.0, 8453045394341888);
  }

  lemma MediaTimeAt1001()
    ensures MediaTime(1001, 8000) == 8804889115230207.0 / 70368744177664.0
  {
    Powers();
    DoubleIs(1001.0 / 8000.0, 55, 36028797018963968.0, 4508103226997866);
    DoubleIs(4508103226997866.0 / 36028797018963968.0 * 1000.0, 46, 70368744177664.0, 8804889115230207);
  }

  lemma Powers()
    ensures Power(46) == 70368744177664.0 && Power(50) == 1125899906842624.0 && Power(55) == 36028797018963968.0
    ensures Power(56) == 72057594037927936.0 && Power(60) == 1152921504606846976.0
  {
    assert Power(5) == 32.0;
    PowerAdds(5, 5);
    PowerAdds(10, 10);
    PowerAdds(20, 20);
    PowerAdds(40, 10);
    PowerAdds(50, 5);
    PowerAdds(50, 10);
    assert Power(50) == 16.0 * Power(46);
  }

  /** The state with which a chunk of the given format is met: another format starts afresh. */
  function Resume(prior: Option<Stage>, rate: Positive, channels: nat): Stage {
    if prior.Some? && prior.value.rate == rate && prior.value.channels == channels then prior.value
    else Stage(rate, channels, None, 0, None)
  }

  /** Consecutive chunks of one format go on where the last one ended; anything else starts at frame 0 with no past. */
  lemma ResumeCarriesOn(prior: Option<Stage>, rate: Positive, channels: nat)
    ensures var stage := Resume(prior, rate, channels);
            && stage.rate == rate && stage.channels == channels
            && (prior.Some? && prior.value.rate == rate && prior.value.channels == channels ==>
                  && stage.last == prior.value.last && stage.offset == prior.value.offset
                  && stage.incident == prior.value.incident)
            && (prior.None? || prior.value.rate != rate || prior.value.channels != channels ==>
                  stage.last.None? && stage.offset == 0 && stage.incident.None?)
  {}

  /** What a chunk does to the state, given the strongest hit in it, and whether an event is emitted. */
  function Observed(stage: Stage, frames: seq<Frame>, hit: Option<Hit>): (Stage, bool) {
    var emit := hit.Some? && (stage.incident.None? || Apart(stage.incident.value, stage.offset + hit.value.frame, stage.rate));
    (stage.(last := LastFrame(frames, stage.last),
            offset := stage.offset + |frames|,
            incident := if emit then Some(stage.offset + hit.value.frame) else stage.incident),
     emit)
  }

  datatype Event = Event(ordinal: nat, stage: string, position: nat, magnitude: nat, channel: nat)

  class StageMonitor {
    var stages: map<string, Stage>
    var ordinal: nat
    var events: seq<Event>

    /** The state of every stage fits its format, and the events are numbered in order. */
    ghost predicate Valid()
      reads this
    {
      && (forall name :: name in stages ==> Uniform([], stages[name].last, stages[name].channels))
      && ordinal == |events|
      && (forall i :: 0 <= i < |events| ==> events[i].ordinal == i)
    }

    function StageOf(name: string): Option<Stage>
      reads this
    {
      if name in stages then Some(stages[name]) else None
    }

    constructor ()
      ensures Valid() && stages == map[] && events == []
    {
      stages, ordinal, events := map[], 0, [];
    }

    /** The discontinuity part of observing one chunk of stage audio. */
    method ObserveStageAudio(name: string, frames: seq<Frame>, rate: int, channels: nat)
        returns (result: Result<()>, ghost hit: Option<Hit>)
      requires Valid()
      requires forall i :: 0 <= i < |frames| ==> |frames[i]| == channels
      modifies this
      ensures Valid()
      ensures rate <= 0 ==> result == Err("sample_rate_hz must be positive")
      ensures rate > 0 && channels == 0 ==> result == Err("channels must be positive")
      ensures result.Err? ==> stages == old(stages) && events == old(events)
      ensures rate > 0 && channels > 0 ==>
        var before := Resume(old(StageOf(name)), rate, channels);
        var (after, emit) := Observed(before, frames, hit);
        && result.Ok?
        && Uniform(frames, before.last, channels)
        && IsStrongest(frames, before.last, channels, hit)
        && stages == old(stages)[name := after]
        && events == old(events) + if emit then
             [Event(|old(events)|, name, before.offset + hit.value.frame, hit.value.magnitude, hit.value.channel)] else []
    {
      hit := None;
      if rate <= 0 {
        return Err("sample_rate_hz must be positive"), None;
      }
      if channels == 0 {
        return Err("channels must be positive"), None;
      }
      var stage := Resume(StageOf(name), rate, channels);
      var found := Detect(frames, stage.last, channels);
      hit := found;
      var incident := stage.incident;
      if found.Some? {
        var at := stage.offset + found.value.frame;
        if incident.None? || Apart(incident.value, at, rate) {
          events := events + [Event(ordinal, name, at, found.value.magnitude, found.value.channel)];
          ordinal := ordinal + 1;
          incident := Some(at);
        }
      }
      stages := stages[name := Stage(rate, channels, LastFrame(frames, stage.last), stage.offset + |frames|, incident)];
      result := Ok(());
    }
  }

  // ---------------------------------------------------------------- a whole stream, however it is cut

  /** `hits[i]` is what the detector finds in chunk `i`. */
  ghost predicate FindsPerChunk(stage: Stage, chunks: seq<seq<Frame>>, hits: seq<Option<Hit>>)
    decreases |chunks|
  {
    && |hits| == |chunks|
    && (chunks != [] ==>
          && Uniform(chunks[0], stage.last, stage.channels)
          && IsStrongest(chunks[0], stage.last, stage.channels, hits[0])
          && FindsPerChunk(Observed(stage, chunks[0], hits[0]).0, chunks[1..], hits[1..]))
  }

  /** The earliest of the strongest per-chunk hits, each shifted by what came before its chunk. */
  function StrongestOfChunks(chunks: seq<seq<Frame>>, hits: seq<Option<Hit>>): Option<Hit>
    requires |hits| == |chunks|
    decreases |chunks|
  {
    if chunks == [] then None
    else Stronger(hits[0], Shift(StrongestOfChunks(chunks[1..], hits[1..]), |chunks[0]|))
  }

  /** Detection over the whole stream is detection chunk by chunk, empty chunks and carried frames included. */
  lemma {:induction false} DetectionIgnoresChunking(stage: Stage, chunks: seq<seq<Frame>>, hits: seq<Option<Hit>>)
    requires Uniform([], stage.last, stage.channels)
    requires FindsPerChunk(stage, chunks, hits)
    ensures Uniform(Flatten(chunks), stage.last, stage.channels)
    ensures IsStrongest(Flatten(chunks), stage.last, stage.channels, StrongestOfChunks(chunks, hits))
    ensures forall best :: IsStrongest(Flatten(chunks), stage.last, stage.channels, best) ==>
      best == StrongestOfChunks(chunks, hits)
    decreases |chunks|
  {
    if chunks != [] {
      var after := Observed(stage, chunks[0], hits[0]).0;
      DetectionIgnoresChunking(after, chunks[1..], hits[1..]);
      StrongestOfParts(chunks[0], Flatten(chunks[1..]), stage.last, stage.channels,
                       hits[0], StrongestOfChunks(chunks[1..], hits[1..]));
    }
    forall best | IsStrongest(Flatten(chunks), stage.last, stage.channels, best)
      ensures best == StrongestOfChunks(chunks, hits)
    {
      StrongestIsUnique(Flatten(chunks), stage.last, stage.channels, best, StrongestOfChunks(chunks, hits));
    }
  }

  /** The positions, in the whole stream, at which events are emitted. */
  function Emitted(stage: Stage, chunks: seq<seq<Frame>>, hits: seq<Option<Hit>>): seq<nat>
    requires |hits| == |chunks|
    decreases |chunks|
  {
    if chunks == [] then []
    else
      var (after, emit) := Observed(stage, chunks[0], hits[0]);
      (if emit then [stage.offset + hits[0].value.frame] else []) + Emitted(after, chunks[1..], hits[1..])
  }

  /** The positions of per-chunk hits for which no event is emitted. */
  function Suppressed(stage: Stage, chunks: seq<seq<Frame>>, hits: seq<Option<Hit>>): seq<nat>
    requires |hits| == |chunks|
    decreases |chunks|
  {
    if chunks == [] then []
    else
      var (after, emit) := Observed(stage, chunks[0], hits[0]);
      (if hits[0].Some? && !emit then [stage.offset + hits[0].value.frame] else [])
      + Suppressed(after, chunks[1..], hits[1..])
  }

  /** Emitted events, after the last incident before them, are the dedup window apart. */
  ghost predicate Spaced(positions: seq<nat>, rate: Positive) {
    forall i, j :: 0 <= i < j < |positions| ==> positions[i] <= positions[j] && Apart(positions[i], positions[j], rate)
  }

  ghost predicate Explained(at: nat, emitted: seq<nat>, rate: Positive) {
    exists i :: 0 <= i < |emitted| && emitted[i] <= at && !Apart(emitted[i], at, rate)
  }

  function Incidents(stage: Stage): seq<nat> {
    if stage.incident.Some? then [stage.incident.value] else []
  }

  lemma {:induction false} EventsAreSpaced(stage: Stage, chunks: seq<seq<Frame>>, hits: seq<Option<Hit>>)
    requires Uniform([], stage.last, stage.channels)
    requires stage.incident.Some? ==> stage.incident.value < stage.offset
    requires FindsPerChunk(stage, chunks, hits)
    ensures var emitted := Incidents(stage) + Emitted(stage, chunks, hits);
            && Spaced(emitted, stage.rate)
            && (forall i :: 0 <= i < |Emitted(stage, chunks, hits)| ==> Emitted(stage, chunks, hits)[i] >= stage.offset)
            && (forall at :: at in Suppressed(stage, chunks, hits) ==> Explained(at, emitted, stage.rate))
    decreases |chunks|
  {
    if chunks != [] {
      var (after, emit) := Observed(stage, chunks[0], hits[0]);
      EventsAreSpaced(after, chunks[1..], hits[1..]);
      var rest := Emitted(after, chunks[1..], hits[1..]);
      var emitted := Incidents(stage) + Emitted(stage, chunks, hits);
      if emit {
        assert emitted == Incidents(stage) + (Incidents(after) + rest);
        SpacedPrefix(Incidents(stage), Incidents(after) + rest, stage.rate);
      } else {
        assert emitted == Incidents(after) + rest;
      }
      forall at | at in Suppressed(stage, chunks, hits) ensures Explained(at, emitted, stage.rate) {
        if at in Suppressed(after, chunks[1..], hits[1..]) {
          ExplainedLater(at, Incidents(stage), Incidents(after) + rest, emitted, stage.rate, emit);
        } else {
          assert emitted[0] == stage.incident.value;
        }
      }
    }
  }

  lemma SpacedPrefix(first: seq<nat>, rest: seq<nat>, rate: Positive)
    requires |first| <= 1 && Spaced(rest, rate)
    requires first != [] && rest != [] ==> first[0] <= rest[0] && Apart(first[0], rest[0], rate)
    ensures Spaced(first + rest, rate)
  {
    if first != [] && rest != [] {
      forall j | 0 <= j < |rest| ensures first[0] <= rest[j] && Apart(first[0], rest[j], rate) {
        ApartIsMonotone(first[0], rest[0], first[0], rest[j], rate);
      }
    }
  }

  lemma ExplainedLater(at: nat, first: seq<nat>, rest: seq<nat>, emitted: seq<nat>, rate: Positive, emit: bool)
    requires Explained(at, rest, rate)
    requires emitted == if emit then first + rest else rest
    ensures Explained(at, emitted, rate)
  {
    var i :| 0 <= i < |rest| && rest[i] <= at && !Apart(rest[i], at, rate);
    assert emit ==> emitted[|first| + i] == rest[i];
    assert !emit ==> emitted[i] == rest[i];
  }

  // ---------------------------------------------------------------- in exact time

  /** At least the window in exact time. */
  ghost predicate SpacedInTime(positions: seq<nat>, rate: Positive) {
    forall i, j :: 0 <= i < j < |positions| ==> (positions[j] - positions[i]) * 1000 >= 5 * rate
  }

  /** At most the window in exact time. */
  ghost predicate ExplainedInTime(at: nat, emitted: seq<nat>, rate: Positive) {
    exists i :: 0 <= i < |emitted| && emitted[i] <= at && (at - emitted[i]) * 1000 <= 5 * rate
  }

  /**
    While times are precise, events are at least the window apart, and a hit without an event is at most the
    window after one; a hit exactly at the window may go either way.
   */
  lemma EventsAreSpacedInTime(stage: Stage, chunks: seq<seq<Frame>>, hits: seq<Option<Hit>>)
    requires Uniform([], stage.last, stage.channels)
    requires stage.incident.Some? ==> stage.incident.value < stage.offset
    requires FindsPerChunk(stage, chunks, hits)
    requires Precise(stage.offset + |Flatten(chunks)|, stage.rate)
    ensures var emitted := Incidents(stage) + Emitted(stage, chunks, hits);
            && SpacedInTime(emitted, stage.rate)
            && (forall at :: at in Suppressed(stage, chunks, hits) ==> ExplainedInTime(at, emitted, stage.rate))
  {
    EventsAreSpaced(stage, chunks, hits);
    PositionsAreWithin(stage, chunks, hits);
    var emitted := Incidents(stage) + Emitted(stage, chunks, hits);
    forall i, j | 0 <= i < j < |emitted| ensures (emitted[j] - emitted[i]) * 1000 >= 5 * stage.rate {
      assert Apart(emitted[i], emitted[j], stage.rate);
      assert emitted[j] in emitted;
      ApartOffTheBoundary(emitted[i], emitted[j], stage.rate);
    }
    forall at | at in Suppressed(stage, chunks, hits) ensures ExplainedInTime(at, emitted, stage.rate) {
      var i :| 0 <= i < |emitted| && emitted[i] <= at && !Apart(emitted[i], at, stage.rate);
      ApartOffTheBoundary(emitted[i], at, stage.rate);
    }
  }

  lemma {:induction false} PositionsAreWithin(stage: Stage, chunks: seq<seq<Frame>>, hits: seq<Option<Hit>>)
    requires FindsPerChunk(stage, chunks, hits)
    ensures forall at :: at in Emitted(stage, chunks, hits) ==> at < stage.offset + |Flatten(chunks)|
    ensures forall at :: at in Suppressed(stage, chunks, hits) ==> at < stage.offset + |Flatten(chunks)|
    decreases |chunks|
  {
    if chunks != [] {
      PositionsAreWithin(Observed(stage, chunks[0], hits[0]).0, chunks[1..], hits[1..]);
    }
  }
}

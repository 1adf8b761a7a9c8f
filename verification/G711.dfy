/**
  Mu-law companding (ITU-T G.711).

  The bit fields of a code never overlap, so the source's shifts and masks are written as the arithmetic
  they perform: `x >> n` is division by `2^n`, `a | b` of disjoint fields is `a + b`, `~x & 0xFF` is `255 - x`.
 */
module G711 {
  import opened Common
  import opened Pcm16

  const BIAS := 0x84
  const CLIP := 32635

  type Exponent = e: int | 0 <= e <= 7

  function Pow2(e: Exponent): int {
    match e
    case 0 => 1 case 1 => 2 case 2 => 4 case 3 => 8
    case 4 => 16 case 5 => 32 case 6 => 64 case _ => 128
  }

  /** `int.bit_length` on a value below 2^16. */
  function BitLength(n: nat): nat
    requires n < 0x10000
  {
    if n == 0 then 0 else 1 + BitLength(n / 2)
  }

  function Magnitude(sample: Sample): (m: nat)
    ensures m <= CLIP
  {
    var absolute: nat := if sample < 0 then 0 - sample else sample;
    if absolute < CLIP then absolute else CLIP
  }

  /** `min(7, max(0, biased.bit_length() - 8))`: the segment that holds a biased magnitude. */
  function Segment(biased: nat): Exponent
    requires biased < 0x10000
  {
    var shifted := BitLength(biased) - 8;
    if shifted < 0 then 0 else if shifted > 7 then 7 else shifted
  }

  function Clamp(sample: int): Sample {
    if sample < -32768 then -32768 else if sample > 32767 then 32767 else sample
  }

  /** `~(sign | (exponent << 4) | mantissa) & 0xFF` */
  function Code(negative: bool, exponent: Exponent, mantissa: nat): Byte
    requires mantissa < 16
  {
    255 - ((if negative then 0x80 else 0) + 16 * exponent + mantissa)
  }

  function Encode(sample: int): Byte {
    var clamped := Clamp(sample);
    var biased := Magnitude(clamped) + BIAS;
    var exponent := Segment(biased);
    Code(clamped < 0, exponent, biased / (8 * Pow2(exponent)) % 16)
  }

  /** The magnitude that an inverted code stands for. */
  function Level(exponent: Exponent, mantissa: nat): int
    requires mantissa < 16
  {
    (8 * mantissa + BIAS) * Pow2(exponent) - BIAS
  }

  function Decode(code: Byte): (sample: Sample)
  {
    var inverted := 255 - code;
    var level := Level(inverted % 128 / 16, inverted % 16);
    LevelInRange(inverted % 128 / 16, inverted % 16);
    if inverted >= 0x80 then -level else level
  }

  lemma LevelInRange(exponent: Exponent, mantissa: nat)
    requires mantissa < 16
    ensures 0 <= Level(exponent, mantissa) <= 32124
  {}

  // ---------------------------------------------------------------- segments

  function Power(k: nat): nat {
    if k == 0 then 1 else 2 * Power(k - 1)
  }

  lemma {:induction false} BitLengthIs(n: nat, k: nat)
    requires n < 0x10000
    requires k >= 1 && Power(k - 1) <= n < Power(k)
    ensures BitLength(n) == k
  {
    if k > 1 {
      BitLengthIs(n / 2, k - 1);
    } else {
      assert n == 1;
    }
  }

  /** A biased magnitude lies in the segment whose octave holds it. */
  lemma SegmentBounds(biased: nat)
    requires BIAS <= biased < 0x8000
    ensures 128 * Pow2(Segment(biased)) <= biased < 256 * Pow2(Segment(biased))
  {
    var k := 8;
    while Power(k) <= biased
      invariant 8 <= k <= 15 && Power(k - 1) <= biased
      decreases biased - Power(k)
    {
      assert Power(15) == 0x8000;
      k := k + 1;
    }
    BitLengthIs(biased, k);
    assert Power(k - 1) == 128 * Pow2(k - 8);
  }

  lemma SegmentIs(biased: nat, e: Exponent)
    requires BIAS <= biased < 0x8000
    requires 128 * Pow2(e) <= biased < 256 * Pow2(e)
    ensures Segment(biased) == e
  {
    SegmentBounds(biased);
  }

  // ---------------------------------------------------------------- one sample

  /** Segment `e` holds sixteen quotients 16 .. 31 of its step, and each level is the middle of a step. */
  lemma LevelIsMidStep(e: Exponent, mantissa: nat)
    requires mantissa < 16
    ensures var step := 8 * Pow2(e);
            && Level(e, mantissa) + BIAS == (16 + mantissa) * step + step / 2
            && (Level(e, mantissa) + BIAS) / step == 16 + mantissa
            && 128 * Pow2(e) <= Level(e, mantissa) + BIAS < 256 * Pow2(e)
  {
    match e
    case 0 => case 1 => case 2 => case 3 => case 4 => case 5 => case 6 => case _ =>
  }

  lemma QuotientInSegment(biased: nat, e: Exponent)
    requires 128 * Pow2(e) <= biased < 256 * Pow2(e)
    ensures var step := 8 * Pow2(e);
            && 16 <= biased / step < 32
            && biased / step * step <= biased < biased / step * step + step
  {
    match e
    case 0 => case 1 => case 2 => case 3 => case 4 => case 5 => case 6 => case _ =>
  }

  lemma LowNibble(quotient: nat)
    requires 16 <= quotient < 32
    ensures quotient % 16 == quotient - 16
  {}

  /** Every magnitude of segment `e` gets the level in the middle of its step. */
  lemma Quantise(biased: nat, e: Exponent)
    requires 128 * Pow2(e) <= biased < 256 * Pow2(e)
    ensures var step := 8 * Pow2(e);
            && Level(e, biased / step % 16) + BIAS == biased / step * step + step / 2
            && biased / step * step <= biased < biased / step * step + step
  {
    var quotient := biased / (8 * Pow2(e));
    QuotientInSegment(biased, e);
    LowNibble(quotient);
    LevelIsMidStep(e, quotient - 16);
  }

  lemma DecodeCode(negative: bool, e: Exponent, mantissa: nat)
    requires mantissa < 16
    ensures Decode(Code(negative, e, mantissa)) == (if negative then -Level(e, mantissa) else Level(e, mantissa))
  {
    var inverted := 255 - Code(negative, e, mantissa);
    assert inverted % 128 == 16 * e + mantissa;
    assert (16 * e + mantissa) / 16 == e;
    assert inverted % 16 == mantissa;
  }

  lemma CodeFields(code: Byte)
    ensures var inverted := 255 - code;
            code == Code(inverted >= 0x80, inverted % 128 / 16, inverted % 16)
  {}

  lemma EncodeLevel(negative: bool, e: Exponent, mantissa: nat)
    requires mantissa < 16
    requires negative ==> Level(e, mantissa) != 0
    ensures -32768 <= Level(e, mantissa) <= 32767
    ensures Encode(if negative then -Level(e, mantissa) else Level(e, mantissa)) == Code(negative, e, mantissa)
  {
    LevelInRange(e, mantissa);
    LevelIsMidStep(e, mantissa);
    SegmentIs(Level(e, mantissa) + BIAS, e);
    assert (16 + mantissa) % 16 == mantissa;
  }

  /** Decoding undoes encoding on codes, except that the negative zero 0x7F is re-encoded as 0xFF. */
  lemma EncodeDecode(code: Byte)
    ensures Encode(Decode(code)) == if code == 0x7F then 0xFF else code
  {
    var inverted := 255 - code;
    var e, mantissa := inverted % 128 / 16, inverted % 16;
    CodeFields(code);
    ZeroLevel(e, mantissa);
    EncodeLevel(inverted >= 0x80 && Level(e, mantissa) != 0, e, mantissa);
  }

  lemma ZeroLevel(e: Exponent, mantissa: nat)
    requires mantissa < 16
    ensures Level(e, mantissa) == 0 <==> e == 0 && mantissa == 0
  {
    match e
    case 0 => case 1 => case 2 => case 3 => case 4 => case 5 => case 6 => case _ =>
  }

  /** The width of the quantisation interval that holds a sample. */
  function Step(sample: Sample): int {
    8 * Pow2(Segment(Magnitude(sample) + BIAS))
  }

  /** A sample decodes, with its sign, to the middle of the quantisation interval that holds it. */
  lemma DecodeEncode(sample: int)
    ensures var clamped := Clamp(sample);
            var biased, step := Magnitude(clamped) + BIAS, Step(clamped);
            var level := biased / step * step + step / 2 - BIAS;
            && Decode(Encode(sample)) == (if clamped < 0 then -level else level)
            && biased / step * step <= biased < biased / step * step + step
  {
    var clamped := Clamp(sample);
    var biased := Magnitude(clamped) + BIAS;
    var e := Segment(biased);
    SegmentBounds(biased);
    Quantise(biased, e);
    DecodeCode(clamped < 0, e, biased / (8 * Pow2(e)) % 16);
  }

  /** The magnitude to which a biased magnitude is quantised. */
  function Quantised(biased: nat): (level: int)
    requires BIAS <= biased < 0x8000
  {
    SegmentBounds(biased);
    Level(Segment(biased), biased / (8 * Pow2(Segment(biased))) % 16)
  }

  lemma DecodedIsQuantised(sample: int)
    ensures var clamped := Clamp(sample);
            var level := Quantised(Magnitude(clamped) + BIAS);
            level >= 0 && Decode(Encode(sample)) == if clamped < 0 then -level else level
  {
    var clamped := Clamp(sample);
    var biased := Magnitude(clamped) + BIAS;
    var e := Segment(biased);
    SegmentBounds(biased);
    LevelInRange(e, biased / (8 * Pow2(e)) % 16);
    DecodeCode(clamped < 0, e, biased / (8 * Pow2(e)) % 16);
  }

  lemma QuantisedMono(a: nat, b: nat)
    requires BIAS <= a <= b < 0x8000
    ensures Quantised(a) <= Quantised(b)
  {
    var e, f := Segment(a), Segment(b);
    SegmentBounds(a);
    SegmentBounds(b);
    QuotientInSegment(a, e);
    QuotientInSegment(b, f);
    LowNibble(a / (8 * Pow2(e)));
    LowNibble(b / (8 * Pow2(f)));
    LevelIsMidStep(e, a / (8 * Pow2(e)) - 16);
    LevelIsMidStep(f, b / (8 * Pow2(f)) - 16);
    if e == f {
      LevelMono(e, a / (8 * Pow2(e)) - 16, b / (8 * Pow2(e)) - 16, a, b);
    } else {
      SegmentsOrdered(a, b, e, f);
    }
  }

  lemma SegmentsOrdered(a: nat, b: nat, e: Exponent, f: Exponent)
    requires a <= b && e != f
    requires 128 * Pow2(e) <= a < 256 * Pow2(e)
    requires 128 * Pow2(f) <= b < 256 * Pow2(f)
    ensures 256 * Pow2(e) <= 128 * Pow2(f)
  {}

  lemma LevelMono(e: Exponent, m: nat, n: nat, a: nat, b: nat)
    requires m < 16 && n < 16 && a <= b
    requires m == a / (8 * Pow2(e)) - 16 && n == b / (8 * Pow2(e)) - 16
    ensures Level(e, m) <= Level(e, n)
  {
    match e
    case 0 => case 1 => case 2 => case 3 => case 4 => case 5 => case 6 => case _ =>
  }

  lemma RoundTripMonotone(s: int, t: int)
    requires s <= t
    ensures Decode(Encode(s)) <= Decode(Encode(t))
  {
    DecodedIsQuantised(s);
    DecodedIsQuantised(t);
    var m, n := Magnitude(Clamp(s)) + BIAS, Magnitude(Clamp(t)) + BIAS;
    if m <= n { QuantisedMono(m, n); } else { QuantisedMono(n, m); }
  }

  lemma RoundTripOdd(s: int)
    ensures Decode(Encode(-s)) == -Decode(Encode(s))
  {
    if s == 0 {
      ZeroIsExact();
    } else {
      DecodedIsQuantised(s);
      DecodedIsQuantised(-s);
      SameMagnitude(s);
    }
  }

  lemma SameMagnitude(s: int)
    ensures Magnitude(Clamp(-s)) == Magnitude(Clamp(s))
  {}

  lemma ZeroIsExact()
    ensures Decode(Encode(0)) == 0
  {
    DecodedIsQuantised(0);
    SilenceIsExact();
  }

  lemma SilenceIsExact()
    ensures Quantised(BIAS) == 0
  {
    SegmentIs(BIAS, 0);
  }

  lemma RoundTripIdempotent(s: int)
    ensures Decode(Encode(Decode(Encode(s)))) == Decode(Encode(s))
  {
    EncodeDecode(Encode(s));
    assert Decode(0x7F) == 0 == Decode(0xFF);
  }

  /** The error is at most half a step, hence at most a thirty-second of the biased magnitude. */
  lemma RoundTripError(s: int)
    ensures var clamped := Clamp(s);
            var absolute := if clamped < 0 then 0 - clamped else 0 + clamped;
            -(absolute + BIAS) <= 32 * (Decode(Encode(s)) - clamped) <= absolute + BIAS
  {
    var clamped := Clamp(s);
    var biased := Magnitude(clamped) + BIAS;
    var e := Segment(biased);
    DecodedIsQuantised(s);
    SegmentBounds(biased);
    Quantise(biased, e);
    HalfStep(biased, e);
  }

  lemma HalfStep(biased: nat, e: Exponent)
    requires 128 * Pow2(e) <= biased < 256 * Pow2(e)
    ensures 0 <= 32 * (8 * Pow2(e) / 2) <= biased
  {
    match e
    case 0 => case 1 => case 2 => case 3 => case 4 => case 5 => case 6 => case _ =>
  }

  // ---------------------------------------------------------------- buffers

  function EncodeAll(samples: seq<Sample>): (codes: seq<Byte>)
    ensures |codes| == |samples|
    ensures forall i :: 0 <= i < |samples| ==> codes[i] == Encode(samples[i])
  {
    if samples == [] then [] else [Encode(samples[0])] + EncodeAll(samples[1..])
  }

  function DecodeAll(codes: seq<Byte>): (samples: seq<Sample>)
    ensures |samples| == |codes|
    ensures forall i :: 0 <= i < |codes| ==> samples[i] == Decode(codes[i])
  {
    if codes == [] then [] else [Decode(codes[0])] + DecodeAll(codes[1..])
  }

  function Pcm16ToMulaw(pcm: seq<Byte>): (result: Result<seq<Byte>>)
    ensures |pcm| % 2 != 0 <==> result == Err("PCM16LE data length must be divisible by two")
    ensures result.Ok? ==> 2 * |result.value| == |pcm|
  {
    if |pcm| % 2 != 0 then Err("PCM16LE data length must be divisible by two") else Ok(EncodeAll(Unpack(pcm)))
  }

  function MulawToPcm16(mulaw: seq<Byte>): seq<Byte> {
    Pack(DecodeAll(mulaw))
  }

  /** Re-encoding decoded octets gives them back exactly when none is the negative zero. */
  lemma OctetsRoundTrip(mulaw: seq<Byte>)
    ensures Pcm16ToMulaw(MulawToPcm16(mulaw)).Ok?
    ensures Pcm16ToMulaw(MulawToPcm16(mulaw)) == Ok(mulaw) <==> 0x7F !in mulaw
  {
    UnpackPack(DecodeAll(mulaw));
    var back := EncodeAll(DecodeAll(mulaw));
    forall i | 0 <= i < |mulaw|
      ensures back[i] == if mulaw[i] == 0x7F then 0xFF else mulaw[i]
    {
      EncodeDecode(mulaw[i]);
    }
    if 0x7F !in mulaw {
      assert back == mulaw;
    } else {
      var i :| 0 <= i < |mulaw| && mulaw[i] == 0x7F;
      assert back[i] != mulaw[i];
    }
  }

  /** A PCM buffer survives the round trip sample by sample, and a second round trip changes nothing more. */
  lemma PcmRoundTrip(pcm: seq<Byte>)
    requires |pcm| % 2 == 0
    ensures Pcm16ToMulaw(pcm).Ok?
    ensures var back := MulawToPcm16(Pcm16ToMulaw(pcm).value);
            && |back| == |pcm|
            && (forall i :: 0 <= i < |pcm| / 2 ==> Unpack(back)[i] == Decode(Encode(Unpack(pcm)[i])))
            && Pcm16ToMulaw(back).Ok? && MulawToPcm16(Pcm16ToMulaw(back).value) == back
  {
    var samples := Unpack(pcm);
    var decoded := DecodeAll(EncodeAll(samples));
    UnpackPack(decoded);
    forall i | 0 <= i < |samples|
      ensures DecodeAll(EncodeAll(decoded))[i] == decoded[i]
    {
      RoundTripIdempotent(samples[i]);
    }
    assert DecodeAll(EncodeAll(decoded)) == decoded;
  }
}

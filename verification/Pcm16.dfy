/** Little-endian PCM16 packing (`struct.pack("<h", ...)`, `struct.iter_unpack("<h", ...)`). */
module Pcm16 {
  type Byte = x: int | 0 <= x < 256
  type Sample = x: int | -32768 <= x <= 32767

  function PackOne(s: Sample): seq<Byte> {
    var unsigned := if s < 0 then s + 65536 else s;
    [unsigned % 256, unsigned / 256]
  }

  function UnpackOne(low: Byte, high: Byte): Sample {
    var unsigned := low + 256 * high;
    if unsigned >= 32768 then unsigned - 65536 else unsigned
  }

  function Pack(samples: seq<Sample>): (bytes: seq<Byte>)
    ensures |bytes| == 2 * |samples|
  {
    if samples == [] then [] else PackOne(samples[0]) + Pack(samples[1..])
  }

  function Unpack(bytes: seq<Byte>): (samples: seq<Sample>)
    requires |bytes| % 2 == 0
    ensures |samples| == |bytes| / 2
  {
    if bytes == [] then [] else [UnpackOne(bytes[0], bytes[1])] + Unpack(bytes[2..])
  }

  lemma {:induction false} UnpackPack(samples: seq<Sample>)
    ensures Unpack(Pack(samples)) == samples
  {
    if samples != [] {
      UnpackPack(samples[1..]);
      assert Pack(samples)[2..] == Pack(samples[1..]);
    }
  }

  lemma {:induction false} PackUnpack(bytes: seq<Byte>)
    requires |bytes| % 2 == 0
    ensures Pack(Unpack(bytes)) == bytes
  {
    if bytes != [] {
      PackUnpack(bytes[2..]);
      assert Unpack(bytes)[1..] == Unpack(bytes[2..]);
      assert bytes == [bytes[0], bytes[1]] + bytes[2..];
    }
  }

  lemma {:induction false} PackAppend(a: seq<Sample>, b: seq<Sample>)
    ensures Pack(a + b) == Pack(a) + Pack(b)
  {
    if a == [] {
      assert a + b == b;
    } else {
      PackAppend(a[1..], b);
      assert (a + b)[1..] == a[1..] + b;
    }
  }
}

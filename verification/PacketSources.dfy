/**
  Which provider chunks the bytes of the packet buffer came from.  The queue of sources is a run-length
  encoding of the chunk ordinals of those bytes; `Expand` decodes it.
 */
module PacketSources {
  import opened Common

  datatype Source = Source(chunk: nat, received: int, remaining: nat)

  datatype Window = Window(chunks: seq<nat>, firstReceived: int, lastReceived: int)

  function Repeat(chunk: nat, n: nat): seq<nat> {
    seq(n, _ => chunk)
  }

  function Expand(sources: seq<Source>): seq<nat> {
    if sources == [] then [] else Repeat(sources[0].chunk, sources[0].remaining) + Expand(sources[1..])
  }

  /** Every entry still owns a byte, and chunks come in the order of their receipt. */
  ghost predicate WellFormed(sources: seq<Source>) {
    && (forall i :: 0 <= i < |sources| ==> sources[i].remaining > 0)
    && (forall i, j :: 0 <= i < j < |sources| ==> sources[i].chunk < sources[j].chunk)
  }

  /** `dict.fromkeys`: the first occurrences, in order. */
  function Unique(chunks: seq<nat>): seq<nat> {
    if chunks == [] then []
    else
      var init := Unique(chunks[..|chunks| - 1]);
      if chunks[|chunks| - 1] in init then init else init + [chunks[|chunks| - 1]]
  }

  function Chunks(sources: seq<Source>): seq<nat> {
    seq(|sources|, i requires 0 <= i < |sources| => sources[i].chunk)
  }

  function WindowOf(sources: seq<Source>): Window
    requires sources != []
  {
    Window(Unique(Chunks(sources)), sources[0].received, sources[|sources| - 1].received)
  }

  /** A window names exactly the chunks of the given bytes, each once and in order. */
  ghost predicate Names(window: Window, origins: seq<nat>) {
    && (forall i, j :: 0 <= i < j < |window.chunks| ==> window.chunks[i] < window.chunks[j])
    && (forall chunk :: chunk in window.chunks <==> chunk in origins)
  }

  /** The two receipt times of a window are those of the first and of the last chunk that it names. */
  ghost predicate Dated(window: Window, sources: seq<Source>) {
    && window.chunks != []
    && (exists i :: 0 <= i < |sources| && sources[i].chunk == window.chunks[0] && sources[i].received == window.firstReceived)
    && (exists i :: 0 <= i < |sources| && sources[i].chunk == window.chunks[|window.chunks| - 1]
                    && sources[i].received == window.lastReceived)
  }

  lemma {:induction false} UniqueOfIncreasing(chunks: seq<nat>)
    requires forall i, j :: 0 <= i < j < |chunks| ==> chunks[i] < chunks[j]
    ensures Unique(chunks) == chunks
  {
    if chunks != [] {
      UniqueOfIncreasing(chunks[..|chunks| - 1]);
      assert chunks == chunks[..|chunks| - 1] + [chunks[|chunks| - 1]];
    }
  }

  lemma {:induction false} ExpandAppend(a: seq<Source>, b: seq<Source>)
    ensures Expand(a + b) == Expand(a) + Expand(b)
  {
    if a == [] {
      assert a + b == b;
    } else {
      assert (a + b)[1..] == a[1..] + b;
      ExpandAppend(a[1..], b);
    }
  }

  lemma {:induction false} ExpandHas(sources: seq<Source>, chunk: nat)
    requires forall i :: 0 <= i < |sources| ==> sources[i].remaining > 0
    ensures chunk in Expand(sources) <==> chunk in Chunks(sources)
  {
    if sources != [] {
      ExpandHas(sources[1..], chunk);
      assert Chunks(sources) == [sources[0].chunk] + Chunks(sources[1..]);
      assert Repeat(sources[0].chunk, sources[0].remaining)[0] == sources[0].chunk;
    }
  }

  /** The window of well-formed sources names the chunks of all their bytes. */
  lemma WindowNames(sources: seq<Source>)
    requires sources != [] && WellFormed(sources)
    ensures Names(WindowOf(sources), Expand(sources)) && Dated(WindowOf(sources), sources)
  {
    UniqueOfIncreasing(Chunks(sources));
    assert sources[0].chunk == Chunks(sources)[0] && sources[|sources| - 1].chunk == Chunks(sources)[|sources| - 1];
    forall chunk ensures chunk in WindowOf(sources).chunks <==> chunk in Expand(sources) {
      ExpandHas(sources, chunk);
    }
  }

  function Used(source: Source, n: nat): Source
    requires n <= source.remaining
  {
    source.(remaining := n)
  }

  /** The queue after its first entry gave up `n` bytes; an exhausted entry leaves it. */
  function Leave(sources: seq<Source>, n: nat): seq<Source>
    requires sources != [] && n <= sources[0].remaining
  {
    if sources[0].remaining == n then sources[1..] else [Used(sources[0], sources[0].remaining - n)] + sources[1..]
  }

  ghost predicate Precede(taken: seq<Source>, rest: seq<Source>) {
    forall i, j :: 0 <= i < |taken| && 0 <= j < |rest| ==> taken[i].chunk < rest[j].chunk
  }

  lemma ExpandCons(source: Source, rest: seq<Source>)
    ensures Expand([source] + rest) == Repeat(source.chunk, source.remaining) + Expand(rest)
  {
    assert ([source] + rest)[1..] == rest;
  }

  lemma RepeatSplit(chunk: nat, m: nat, n: nat)
    ensures Repeat(chunk, m) + Repeat(chunk, n) == Repeat(chunk, m + n)
  {}

  lemma ExpandOne(source: Source)
    ensures Expand([source]) == Repeat(source.chunk, source.remaining)
  {
    ExpandCons(source, []);
    assert [source] + [] == [source];
  }

  lemma ExpandRest(rest: seq<Source>, n: nat)
    requires rest != [] && n < rest[0].remaining
    ensures Repeat(rest[0].chunk, n) + Expand(Leave(rest, n)) == Expand(rest)
  {
    var first, more := rest[0], rest[1..];
    ExpandCons(Used(first, first.remaining - n), more);
    RepeatSplit(first.chunk, n, first.remaining - n);
    ConcatAssociates(Repeat(first.chunk, n), Repeat(first.chunk, first.remaining - n), Expand(more));
  }

  lemma ExpandLeave(rest: seq<Source>, n: nat)
    requires rest != [] && n <= rest[0].remaining
    ensures Expand([Used(rest[0], n)]) == Repeat(rest[0].chunk, n)
    ensures Repeat(rest[0].chunk, n) + Expand(Leave(rest, n)) == Expand(rest)
  {
    ExpandOne(Used(rest[0], n));
    if rest[0].remaining > n {
      ExpandRest(rest, n);
    }
  }

  lemma RoundKeepsOrder(taken: seq<Source>, rest: seq<Source>, n: nat)
    requires WellFormed(taken) && WellFormed(rest) && Precede(taken, rest)
    requires rest != [] && 0 < n <= rest[0].remaining
    ensures WellFormed(taken + [Used(rest[0], n)]) && WellFormed(Leave(rest, n))
    ensures n == rest[0].remaining ==> Precede(taken + [Used(rest[0], n)], Leave(rest, n))
  {
  }

  /** One round of the consuming loop moves bytes from the queue to those taken and loses none. */
  lemma RoundKeepsBytes(taken: seq<Source>, rest: seq<Source>, n: nat)
    requires rest != [] && n <= rest[0].remaining
    ensures Expand(taken + [Used(rest[0], n)]) + Expand(Leave(rest, n)) == Expand(taken) + Expand(rest)
    ensures |Expand(taken + [Used(rest[0], n)])| == |Expand(taken)| + n
  {
    ExpandAppend(taken, [Used(rest[0], n)]);
    ExpandLeave(rest, n);
    var piece := Repeat(rest[0].chunk, n);
    assert (Expand(taken) + piece) + Expand(Leave(rest, n)) == Expand(taken) + (piece + Expand(Leave(rest, n)));
  }

  lemma ChunksAppend(taken: seq<Source>, consumed: seq<Source>, source: Source, n: nat)
    requires Chunks(taken) == Chunks(consumed) && n <= source.remaining
    ensures Chunks(taken + [Used(source, n)]) == Chunks(consumed + [source])
  {
    assert Chunks(taken + [Used(source, n)]) == Chunks(taken) + [source.chunk];
    assert Chunks(consumed + [source]) == Chunks(consumed) + [source.chunk];
  }

  /** The entries consumed are the first of the queue; until the last round the rest is what follows them. */
  ghost predicate ConsumedSoFar(consumed: seq<Source>, rest: seq<Source>, sources: seq<Source>, remaining: nat) {
    consumed <= sources && (remaining > 0 ==> rest == sources[|consumed|..])
  }

  lemma TakenNext(consumed: seq<Source>, rest: seq<Source>, sources: seq<Source>, remaining: nat)
    requires ConsumedSoFar(consumed, rest, sources, remaining) && remaining > 0 && rest != []
    ensures consumed + [rest[0]] <= sources && rest[1..] == sources[|consumed| + 1..]
  {}

  lemma ConsumedIs(consumed: seq<Source>, taken: seq<Source>, rest: seq<Source>, sources: seq<Source>, count: nat)
    requires consumed != [] && consumed <= sources && WellFormed(taken) && Chunks(consumed) == Chunks(taken)
    requires Expand(taken) + Expand(rest) == Expand(sources) && |Expand(taken)| == count
    ensures Expand(rest) == Expand(sources)[count..]
    ensures Names(WindowOf(consumed), Expand(sources)[..count]) && Dated(WindowOf(consumed), sources)
  {
    assert |Chunks(taken)| == |taken| == |consumed|;
    WindowNames(taken);
    ConsumedIsDated(consumed, taken, sources);
    assert Expand(taken) == Expand(sources)[..count] && Expand(rest) == Expand(sources)[count..];
  }

  /** The entries consumed are the first of the queue, so their receipt times are there. */
  lemma ConsumedIsDated(consumed: seq<Source>, taken: seq<Source>, sources: seq<Source>)
    requires consumed != [] && consumed <= sources && WellFormed(taken) && Chunks(consumed) == Chunks(taken)
    ensures Dated(WindowOf(consumed), sources)
  {
    assert |Chunks(taken)| == |taken| && |Chunks(consumed)| == |consumed|;
    forall i, j | 0 <= i < j < |consumed| ensures Chunks(consumed)[i] < Chunks(consumed)[j] {
      assert Chunks(taken)[i] == taken[i].chunk && Chunks(taken)[j] == taken[j].chunk;
    }
    UniqueOfIncreasing(Chunks(consumed));
    var n := |consumed| - 1;
    assert sources[0] == consumed[0] && sources[n] == consumed[n];
    assert Chunks(consumed)[0] == consumed[0].chunk && Chunks(consumed)[n] == consumed[n].chunk;
  }

  /**
    Takes `count` bytes off the queue.  It fails exactly when there are not that many; otherwise what
    remains encodes the remaining bytes and the window names the chunks of the bytes taken.
   */
  method Consume(sources: seq<Source>, count: int) returns (result: Result<Window>, rest: seq<Source>)
    requires WellFormed(sources)
    ensures WellFormed(rest)
    ensures count <= 0 ==> result == Err("byte_count must be positive") && rest == sources
    ensures count > |Expand(sources)| && count > 0 ==> result == Err("packet source accounting underrun") && rest == []
    ensures 0 < count <= |Expand(sources)| ==>
      && result.Ok?
      && Expand(rest) == Expand(sources)[count..]
      && Names(result.value, Expand(sources)[..count])
      && Dated(result.value, sources)
  {
    rest := sources;
    if count <= 0 {
      return Err("byte_count must be positive"), rest;
    }
    var remaining: nat := count;
    var consumed: seq<Source> := [];
    ghost var taken: seq<Source> := [];
    while remaining > 0
      invariant remaining <= count && WellFormed(rest) && WellFormed(taken)
      invariant Expand(taken) + Expand(rest) == Expand(sources)
      invariant |Expand(taken)| == count - remaining
      invariant Chunks(consumed) == Chunks(taken)
      invariant ConsumedSoFar(consumed, rest, sources, remaining)
      invariant consumed == [] ==> remaining == count
      invariant remaining > 0 ==> Precede(taken, rest)
      decreases remaining
    {
      if rest == [] {
        return Err("packet source accounting underrun"), [];
      }
      var source := rest[0];
      var bytes := if remaining < source.remaining then remaining else source.remaining;
      ChunksAppend(taken, consumed, source, bytes);
      RoundKeepsOrder(taken, rest, bytes);
      RoundKeepsBytes(taken, rest, bytes);
      TakenNext(consumed, rest, sources, remaining);
      consumed := consumed + [source];
      taken := taken + [Used(source, bytes)];
      rest := Leave(rest, bytes);
      remaining := remaining - bytes;
    }
    ConsumedIs(consumed, taken, rest, sources, count);
    result := Ok(WindowOf(consumed));
  }
}

/** RTP sequence-gap and arrival-stall evidence over 16-bit sequence numbers and 32-bit timestamps. */
module Rtp {
  import opened Common

  /** The key under which observations are grouped. */
  datatype Stream = Stream(alias: string, direction: string, clockDomain: string)

  datatype Observation = Observation(stream: Stream, arrivalMs: real, sequence: int, timestamp: int, clockRate: int)

  /** Observations with a field out of bounds are skipped before any evidence is derived. */
  type Packet = p: Observation |
      0 <= p.sequence < 0x10000 && 0 <= p.timestamp < 0x1_0000_0000 && 0 < p.clockRate <= 384_000
    witness Observation(Stream("", "", ""), 0.0, 0, 0, 1)

  datatype Kind = SequenceGap | ArrivalStall

  datatype Discontinuity = Discontinuity(kind: Kind, previous: Packet, current: Packet, missing: nat)

  const STALL_EXCESS_MS := 100.0

  function SequenceDelta(previous: Packet, current: Packet): int {
    (current.sequence - previous.sequence) % 0x10000
  }

  /** How much later the packet arrived than its media timestamp accounts for, never negative. */
  function ExcessDelayMs(previous: Packet, current: Packet): (excess: real)
    ensures excess >= 0.0
  {
    var gap := current.arrivalMs - previous.arrivalMs;
    var arrival := if gap < 0.0 then 0.0 else gap;
    var advance := if current.clockRate != previous.clockRate then 0.0
                   else ((current.timestamp - previous.timestamp) % 0x1_0000_0000) as real / current.clockRate as real * 1000.0;
    if arrival - advance < 0.0 then 0.0 else arrival - advance
  }

  function PairEvidence(previous: Packet, current: Packet): Option<Discontinuity>
  {
    var delta := SequenceDelta(previous, current);
    if 1 < delta < 0x8000 then
      Some(Discontinuity(SequenceGap, previous, current, delta - 1))
    else if delta == 1 && current.clockRate == previous.clockRate
            && ExcessDelayMs(previous, current) >= STALL_EXCESS_MS then
      Some(Discontinuity(ArrivalStall, previous, current, 0))
    else
      None
  }

  /** The evidence of the neighbouring pairs of one stream, in order. */
  function StreamEvidence(packets: seq<Packet>): seq<Discontinuity>
  {
    if |packets| < 2 then []
    else
      var last := PairEvidence(packets[|packets| - 2], packets[|packets| - 1]);
      StreamEvidence(packets[..|packets| - 1]) + if last.Some? then [last.value] else []
  }

  function Select(packets: seq<Packet>, stream: Stream): seq<Packet> {
    if packets == [] then []
    else Select(packets[..|packets| - 1], stream)
         + if packets[|packets| - 1].stream == stream then [packets[|packets| - 1]] else []
  }

  /** Packets reported missing on one stream. */
  function Missing(evidence: seq<Discontinuity>, stream: Stream): nat {
    if evidence == [] then 0
    else Missing(evidence[..|evidence| - 1], stream) + OnStream(evidence[|evidence| - 1], stream)
  }

  function OnStream(item: Discontinuity, stream: Stream): nat {
    if item.current.stream == stream then item.missing else 0
  }

  lemma MissingNext(items: seq<Discontinuity>, item: Discontinuity, stream: Stream)
    ensures Missing(items + [item], stream) == Missing(items, stream) + OnStream(item, stream)
  {
    assert (items + [item])[..|items|] == items;
  }

  lemma {:induction false} MissingAppend(a: seq<Discontinuity>, b: seq<Discontinuity>, stream: Stream)
    ensures Missing(a + b, stream) == Missing(a, stream) + Missing(b, stream)
    decreases |b|
  {
    if b == [] {
      assert a + b == a;
    } else {
      var n := |b| - 1;
      assert (a + b)[..|a| + n] == a + b[..n];
      MissingAppend(a, b[..n], stream);
    }
  }

  /** The count contributed by one pair of neighbours. */
  function PairMissing(previous: Packet, current: Packet): nat {
    var found := PairEvidence(previous, current);
    if found.Some? then found.value.missing else 0
  }

  lemma MissingPair(packets: seq<Packet>, stream: Stream)
    requires |packets| >= 2
    ensures var n := |packets|;
            Missing(StreamEvidence(packets), stream)
              == Missing(StreamEvidence(packets[..n - 1]), stream)
                 + if packets[n - 1].stream == stream then PairMissing(packets[n - 2], packets[n - 1]) else 0
  {
    var n := |packets|;
    var found := PairEvidence(packets[n - 2], packets[n - 1]);
    if found.Some? {
      MissingNext(StreamEvidence(packets[..n - 1]), found.value, stream);
    } else {
      assert StreamEvidence(packets) == StreamEvidence(packets[..n - 1]);
    }
  }

  // ---------------------------------------------------------------- the derivation

  lemma SelectNext(packets: seq<Packet>, next: Packet, stream: Stream)
    ensures Select(packets + [next], stream) == Select(packets, stream) + if next.stream == stream then [next] else []
  {
    assert (packets + [next])[..|packets|] == packets;
  }

  method GroupByStream(observations: seq<Packet>) returns (order: seq<Stream>, groups: map<Stream, seq<Packet>>)
    ensures Distinct(order)
    ensures forall stream :: stream in order <==> stream in groups
    ensures forall stream :: Select(observations, stream) == if stream in groups then groups[stream] else []
    ensures forall stream :: stream in groups ==> groups[stream] != []
  {
    order, groups := [], map[];
    for i := 0 to |observations|
      invariant Distinct(order)
      invariant forall stream :: stream in order <==> stream in groups
      invariant forall stream :: Select(observations[..i], stream) == if stream in groups then groups[stream] else []
      invariant forall stream :: stream in groups ==> groups[stream] != []
    {
      var item := observations[i];
      assert observations[..i + 1] == observations[..i] + [item];
      forall stream
        ensures Select(observations[..i + 1], stream)
             == Select(observations[..i], stream) + if item.stream == stream then [item] else []
      {
        SelectNext(observations[..i], item, stream);
      }
      if item.stream in groups {
        groups := groups[item.stream := groups[item.stream] + [item]];
      } else {
        order, groups := order + [item.stream], groups[item.stream := [item]];
      }
    }
    assert observations[..|observations|] == observations;
  }

  method PairwiseEvidence(packets: seq<Packet>) returns (evidence: seq<Discontinuity>)
    ensures evidence == StreamEvidence(packets)
  {
    evidence := [];
    if packets == [] {
      return;
    }
    for j := 1 to |packets|
      invariant evidence == StreamEvidence(packets[..j])
    {
      assert packets[..j + 1][..j] == packets[..j];
      var found := PairEvidence(packets[j - 1], packets[j]);
      if found.Some? {
        evidence := evidence + [found.value];
      }
    }
    assert packets[..|packets|] == packets;
  }

  /** The evidence of the streams one after the other. */
  ghost function EvidenceOf(observations: seq<Packet>, order: seq<Stream>): seq<Discontinuity> {
    if order == [] then []
    else
      var n := |order| - 1;
      EvidenceOf(observations, order[..n]) + StreamEvidence(Select(observations, order[n]))
  }

  /** Each stream that occurs is judged once, by its own packets alone, whatever is mixed in between. */
  method PacketDiscontinuities(observations: seq<Packet>) returns (evidence: seq<Discontinuity>, order: seq<Stream>)
    ensures Distinct(order) && forall stream :: stream in order <==> Select(observations, stream) != []
    ensures evidence == ByArrival(EvidenceOf(observations, order))
    ensures forall item :: item in evidence ==> IsGap(item.previous, item.current) || IsStall(item.previous, item.current)
    ensures forall stream, i: nat :: stream in order ==> IsCovered(Select(observations, stream), i, evidence)
  {
    evidence, order := CollectEvidence(observations);
    EvidenceIsGapsAndStalls(observations, order);
    evidence := ByArrival(evidence);
  }

  method CollectEvidence(observations: seq<Packet>) returns (evidence: seq<Discontinuity>, order: seq<Stream>)
    ensures Distinct(order) && forall stream :: stream in order <==> Select(observations, stream) != []
    ensures evidence == EvidenceOf(observations, order)
  {
    var streams, groups := GroupByStream(observations);
    order := streams;
    evidence := EvidenceOfGroups(order, groups, observations);
  }

  method EvidenceOfGroups(order: seq<Stream>, groups: map<Stream, seq<Packet>>, ghost observations: seq<Packet>)
      returns (evidence: seq<Discontinuity>)
    requires forall i :: 0 <= i < |order| ==> order[i] in groups && groups[order[i]] == Select(observations, order[i])
    ensures evidence == EvidenceOf(observations, order)
  {
    evidence := [];
    for i := 0 to |order|
      invariant evidence == EvidenceOf(observations, order[..i])
    {
      var found := PairwiseEvidence(groups[order[i]]);
      EvidenceNext(observations, order, i);
      evidence := evidence + found;
    }
    assert order[..|order|] == order;
  }

  lemma EvidenceNext(observations: seq<Packet>, order: seq<Stream>, i: nat)
    requires i < |order|
    ensures EvidenceOf(observations, order[..i + 1])
         == EvidenceOf(observations, order[..i]) + StreamEvidence(Select(observations, order[i]))
  {
    assert order[..i + 1][..i] == order[..i];
  }

  /** What is reported missing of a stream is what its own packets say. */
  lemma MissingOfStream(observations: seq<Packet>, order: seq<Stream>, stream: Stream)
    requires Distinct(order)
    ensures Missing(ByArrival(EvidenceOf(observations, order)), stream)
         == if stream in order then Missing(StreamEvidence(Select(observations, stream)), stream) else 0
  {
    MissingByArrival(EvidenceOf(observations, order), stream);
    MissingBeforeSorting(observations, order, stream);
  }

  lemma {:induction false} MissingBeforeSorting(observations: seq<Packet>, order: seq<Stream>, stream: Stream)
    requires Distinct(order)
    ensures Missing(EvidenceOf(observations, order), stream)
         == if stream in order then Missing(StreamEvidence(Select(observations, stream)), stream) else 0
  {
    if order != [] {
      var n := |order| - 1;
      MissingBeforeSorting(observations, order[..n], stream);
      MissingAppend(EvidenceOf(observations, order[..n]), StreamEvidence(Select(observations, order[n])), stream);
      if order[n] != stream {
        SelectIsOfStream(observations, order[n]);
        MissingElsewhere(Select(observations, order[n]), order[n], stream);
      } else {
        assert stream !in order[..n];
      }
      assert order == order[..n] + [order[n]];
    }
  }

  lemma {:induction false} SelectIsOfStream(packets: seq<Packet>, stream: Stream)
    ensures forall p :: p in Select(packets, stream) ==> p.stream == stream
  {
    if packets != [] {
      SelectIsOfStream(packets[..|packets| - 1], stream);
    }
  }

  lemma {:induction false} MissingElsewhere(packets: seq<Packet>, stream: Stream, other: Stream)
    requires forall p :: p in packets ==> p.stream == stream
    requires other != stream
    ensures Missing(StreamEvidence(packets), other) == 0
  {
    if |packets| >= 2 {
      MissingElsewhere(packets[..|packets| - 1], stream, other);
      MissingPair(packets, other);
    }
  }

  // ---------------------------------------------------------------- what is reported, and what is not

  /** The media time between two packets in milliseconds, by their timestamps; none is known if the clock changes. */
  function MediaAdvanceMs(previous: Packet, current: Packet): real {
    if previous.clockRate == current.clockRate then
      ((current.timestamp - previous.timestamp) % 0x1_0000_0000) as real / current.clockRate as real * 1000.0
    else 0.0
  }

  /** A gap: the number jumps ahead, by less than half the number space. */
  predicate IsGap(previous: Packet, current: Packet) {
    2 <= (current.sequence - previous.sequence) % 65_536 <= 32_767
  }

  /** A stall: the next number on the same clock arrives 100 ms later, or more, than its timestamp accounts for. */
  predicate IsStall(previous: Packet, current: Packet) {
    && (current.sequence - previous.sequence) % 65_536 == 1 && current.clockRate == previous.clockRate
    && current.arrivalMs - previous.arrivalMs >= MediaAdvanceMs(previous, current) + 100.0
  }

  lemma PairIsJudged(previous: Packet, current: Packet)
    ensures var found := PairEvidence(previous, current);
            && (found.Some? <==> IsGap(previous, current) || IsStall(previous, current))
            && (found.Some? ==> found.value.previous == previous && found.value.current == current)
            && (IsGap(previous, current) ==>
                  found.value.kind == SequenceGap
                  && found.value.missing == (current.sequence - previous.sequence) % 65_536 - 1)
            && (IsStall(previous, current) ==> found.value.kind == ArrivalStall && found.value.missing == 0)
  {
    if previous.clockRate == current.clockRate {
      AdvanceIsPositive((current.timestamp - previous.timestamp) % 0x1_0000_0000, current.clockRate);
    }
  }

  lemma AdvanceIsPositive(ticks: int, rate: int)
    requires ticks >= 0 && rate > 0
    ensures ticks as real / rate as real * 1000.0 >= 0.0
  {}

  /** The packet at that place and the one before it show the item. */
  ghost predicate ShownAt(packets: seq<Packet>, i: nat, item: Discontinuity) {
    0 < i < |packets| && PairEvidence(packets[i - 1], packets[i]) == Some(item)
  }

  ghost predicate IsNeighbourly(packets: seq<Packet>, item: Discontinuity) {
    exists i :: ShownAt(packets, i, item)
  }

  /** The evidence of a stream is that of its neighbouring packets, all of them and no others. */
  lemma {:induction false} StreamEvidenceIs(packets: seq<Packet>, item: Discontinuity)
    ensures item in StreamEvidence(packets) <==> IsNeighbourly(packets, item)
  {
    var n := |packets|;
    if n >= 2 {
      var init, last := packets[..n - 1], PairEvidence(packets[n - 2], packets[n - 1]);
      StreamEvidenceIs(init, item);
      assert item in StreamEvidence(packets) <==> item in StreamEvidence(init) || last == Some(item);
      assert ShownAt(packets, n - 1, item) <==> last == Some(item);
      if IsNeighbourly(init, item) {
        var i: nat :| ShownAt(init, i, item);
        assert ShownAt(packets, i, item);
      }
      if IsNeighbourly(packets, item) {
        var i: nat :| ShownAt(packets, i, item);
        if i < n - 1 { assert ShownAt(init, i, item); }
      }
    }
  }

  lemma SortedHasTheSame(evidence: seq<Discontinuity>, item: Discontinuity)
    ensures item in ByArrival(evidence) <==> item in evidence
  {
    assert item in multiset(ByArrival(evidence)) <==> item in multiset(evidence);
  }

  ghost predicate IsOfStream(observations: seq<Packet>, stream: Stream, item: Discontinuity) {
    IsNeighbourly(Select(observations, stream), item)
  }

  ghost predicate IsOfSome(observations: seq<Packet>, order: seq<Stream>, item: Discontinuity) {
    exists i :: 0 <= i < |order| && IsOfStream(observations, order[i], item)
  }

  lemma OneMoreStream(observations: seq<Packet>, init: seq<Stream>, last: Stream, item: Discontinuity)
    ensures IsOfSome(observations, init + [last], item) <==>
      IsOfSome(observations, init, item) || IsOfStream(observations, last, item)
  {
    assert (init + [last])[|init|] == last;
    if i :| 0 <= i < |init| && IsOfStream(observations, init[i], item) {
      assert (init + [last])[i] == init[i];
    }
  }

  /** What is reported is exactly what some neighbours of some stream show. */
  lemma {:induction false} ReportedExactly(observations: seq<Packet>, order: seq<Stream>, item: Discontinuity)
    ensures item in EvidenceOf(observations, order) <==> IsOfSome(observations, order, item)
    decreases |order|
  {
    if order != [] {
      var n := |order| - 1;
      ReportedExactly(observations, order[..n], item);
      StreamEvidenceIs(Select(observations, order[n]), item);
      OneMoreStream(observations, order[..n], order[n], item);
      assert order == order[..n] + [order[n]];
    }
  }

  /** Every gap and every stall between these neighbours is among the evidence. */
  ghost predicate IsCovered(packets: seq<Packet>, i: nat, evidence: seq<Discontinuity>) {
    0 < i < |packets| && (IsGap(packets[i - 1], packets[i]) || IsStall(packets[i - 1], packets[i])) ==>
      exists item :: item in evidence && item.previous == packets[i - 1] && item.current == packets[i]
  }

  /** The evidence reports gaps and stalls only, and all of them. */
  lemma EvidenceIsGapsAndStalls(observations: seq<Packet>, order: seq<Stream>)
    ensures forall item :: item in ByArrival(EvidenceOf(observations, order)) ==>
      IsGap(item.previous, item.current) || IsStall(item.previous, item.current)
    ensures forall stream, i: nat :: stream in order ==>
      IsCovered(Select(observations, stream), i, ByArrival(EvidenceOf(observations, order)))
  {
    var evidence := ByArrival(EvidenceOf(observations, order));
    forall item | item in evidence ensures IsGap(item.previous, item.current) || IsStall(item.previous, item.current) {
      SortedHasTheSame(EvidenceOf(observations, order), item);
      ReportedExactly(observations, order, item);
      var k :| 0 <= k < |order| && IsOfStream(observations, order[k], item);
      var packets := Select(observations, order[k]);
      var i: nat :| ShownAt(packets, i, item);
      PairIsJudged(packets[i - 1], packets[i]);
    }
    forall stream, i: nat | stream in order ensures IsCovered(Select(observations, stream), i, evidence) {
      var packets := Select(observations, stream);
      if 0 < i < |packets| && (IsGap(packets[i - 1], packets[i]) || IsStall(packets[i - 1], packets[i])) {
        PairIsJudged(packets[i - 1], packets[i]);
        var item := PairEvidence(packets[i - 1], packets[i]).value;
        assert ShownAt(packets, i, item);
        var k :| 0 <= k < |order| && order[k] == stream;
        assert IsOfStream(observations, order[k], item);
        ReportedExactly(observations, order, item);
        SortedHasTheSame(EvidenceOf(observations, order), item);
      }
    }
  }

  // ---------------------------------------------------------------- the order of arrival

  predicate TextAtMost(a: string, b: string) {
    a == [] || (b != [] && (a[0] < b[0] || (a[0] == b[0] && TextAtMost(a[1..], b[1..]))))
  }

  lemma {:induction false} TextIsOrdered(a: string, b: string, c: string)
    ensures TextAtMost(a, b) || TextAtMost(b, a)
    ensures TextAtMost(a, b) && TextAtMost(b, c) ==> TextAtMost(a, c)
    decreases |a|
  {
    if a != [] {
      TextIsOrdered(a[1..], if b == [] then [] else b[1..], if c == [] then [] else c[1..]);
    }
  }

  /** Two texts agree up to some place, where the first one ends or has the smaller character. */
  lemma {:induction false} TextIsLexicographic(a: string, b: string)
    ensures TextAtMost(a, b) <==>
      exists k :: DiffersAt(a, b, k)
    decreases |a|
  {
    if a == [] {
      assert DiffersAt(a, b, 0);
    } else if b != [] {
      TextIsLexicographic(a[1..], b[1..]);
      if a[0] < b[0] {
        assert DiffersAt(a, b, 0);
      } else if a[0] == b[0] && TextAtMost(a[1..], b[1..]) {
        var k: nat :| DiffersAt(a[1..], b[1..], k);
        assert a[..k + 1] == [a[0]] + a[1..][..k] && b[..k + 1] == [b[0]] + b[1..][..k];
        assert DiffersAt(a, b, k + 1);
      }
      if exists k :: DiffersAt(a, b, k) {
        var k: nat :| DiffersAt(a, b, k);
        if k > 0 {
          assert a[..k][0] == a[0] && b[..k][0] == b[0];
          assert a[1..][..k - 1] == a[..k][1..] && b[1..][..k - 1] == b[..k][1..];
          assert DiffersAt(a[1..], b[1..], k - 1);
        }
      }
    }
  }

  predicate DiffersAt(a: string, b: string, k: nat) {
    k <= |a| && k <= |b| && a[..k] == b[..k] && (k == |a| || (k < |b| && a[k] < b[k]))
  }

  /** By the arrival of the later packet, then by the name of the stream. */
  predicate NotAfter(a: Discontinuity, b: Discontinuity) {
    || a.current.arrivalMs < b.current.arrivalMs
    || (a.current.arrivalMs == b.current.arrivalMs && TextAtMost(a.current.stream.alias, b.current.stream.alias))
  }

  lemma NotAfterIsOrdered(a: Discontinuity, b: Discontinuity, c: Discontinuity)
    ensures NotAfter(a, b) || NotAfter(b, a)
    ensures NotAfter(a, b) && NotAfter(b, c) ==> NotAfter(a, c)
  {
    TextIsOrdered(a.current.stream.alias, b.current.stream.alias, c.current.stream.alias);
  }

  function Insert(items: seq<Discontinuity>, item: Discontinuity): (r: seq<Discontinuity>)
    ensures multiset(r) == multiset(items) + multiset{item}
  {
    if items == [] then [item]
    else
      var init, last := items[..|items| - 1], items[|items| - 1];
      assert items == init + [last];
      if NotAfter(last, item) then items + [item] else Insert(init, item) + [last]
  }

  /** `sorted` by arrival, stream and index of the evidence, which keeps equal ones in the order they were found. */
  function ByArrival(evidence: seq<Discontinuity>): (r: seq<Discontinuity>)
    ensures multiset(r) == multiset(evidence)
  {
    if evidence == [] then []
    else
      assert evidence == evidence[..|evidence| - 1] + [evidence[|evidence| - 1]];
      Insert(ByArrival(evidence[..|evidence| - 1]), evidence[|evidence| - 1])
  }

  ghost predicate InArrivalOrder(items: seq<Discontinuity>) {
    forall i, j :: 0 <= i < j < |items| ==> NotAfter(items[i], items[j])
  }

  lemma {:induction false} InsertKeepsOrder(items: seq<Discontinuity>, item: Discontinuity)
    requires InArrivalOrder(items)
    ensures InArrivalOrder(Insert(items, item))
  {
    if items != [] {
      var init, last := items[..|items| - 1], items[|items| - 1];
      if NotAfter(last, item) {
        forall i | 0 <= i < |items| ensures NotAfter(items[i], item) {
          NotAfterIsOrdered(items[i], last, item);
        }
      } else {
        InsertKeepsOrder(init, item);
        NotAfterIsOrdered(last, item, last);
        var r := Insert(init, item);
        forall i | 0 <= i < |r| ensures NotAfter(r[i], last) {
          assert r[i] in multiset(r);
          assert r[i] == item || r[i] in init;
        }
      }
    }
  }

  /** Sorted: arrivals do not go back, and at one arrival the stream names do not. */
  lemma SortedByArrival(evidence: seq<Discontinuity>, i: nat, j: nat)
    requires i < j < |evidence|
    ensures |ByArrival(evidence)| == |evidence|
    ensures var sorted := ByArrival(evidence);
            && sorted[i].current.arrivalMs <= sorted[j].current.arrivalMs
            && (sorted[i].current.arrivalMs == sorted[j].current.arrivalMs ==>
                  exists k :: DiffersAt(sorted[i].current.stream.alias, sorted[j].current.stream.alias, k))
  {
    ByArrivalIsStableSort(evidence);
    assert |multiset(ByArrival(evidence))| == |multiset(evidence)|;
    var sorted := ByArrival(evidence);
    assert NotAfter(sorted[i], sorted[j]);
    TextIsLexicographic(sorted[i].current.stream.alias, sorted[j].current.stream.alias);
  }

  /** The evidence of the same arrival on streams of the same name. */
  function Alongside(items: seq<Discontinuity>, like: Discontinuity): seq<Discontinuity> {
    if items == [] then [] else Alongside(items[..|items| - 1], like) + IfTied(items[|items| - 1], like)
  }

  function IfTied(item: Discontinuity, like: Discontinuity): seq<Discontinuity> {
    if NotAfter(item, like) && NotAfter(like, item) then [item] else []
  }

  lemma AlongsideNext(items: seq<Discontinuity>, next: Discontinuity, like: Discontinuity)
    ensures Alongside(items + [next], like) == Alongside(items, like) + IfTied(next, like)
  {
    assert (items + [next])[..|items|] == items;
  }

  lemma NotBothTied(last: Discontinuity, item: Discontinuity, like: Discontinuity)
    requires !NotAfter(last, item)
    ensures IfTied(last, like) == [] || IfTied(item, like) == []
  {
    NotAfterIsOrdered(last, like, item);
  }

  lemma {:induction false} InsertIsStable(items: seq<Discontinuity>, item: Discontinuity, like: Discontinuity)
    ensures Alongside(Insert(items, item), like) == Alongside(items, like) + IfTied(item, like)
  {
    if items == [] {
      AlongsideNext([], item, like);
      assert [] + [item] == [item];
    } else {
      var init, last := items[..|items| - 1], items[|items| - 1];
      if NotAfter(last, item) {
        AlongsideNext(items, item, like);
      } else {
        InsertIsStable(init, item, like);
        AlongsideNext(Insert(init, item), last, like);
        NotBothTied(last, item, like);
        Swapped(Alongside(init, like), IfTied(item, like), IfTied(last, like));
      }
    }
  }

  lemma Swapped(a: seq<Discontinuity>, b: seq<Discontinuity>, c: seq<Discontinuity>)
    requires b == [] || c == []
    ensures a + b + c == a + c + b
  {}

  /** The evidence comes in order of arrival, nothing is added or lost, and ties stay as they were found. */
  lemma {:induction false} ByArrivalIsStableSort(evidence: seq<Discontinuity>)
    ensures InArrivalOrder(ByArrival(evidence))
    ensures multiset(ByArrival(evidence)) == multiset(evidence)
    ensures forall like :: Alongside(ByArrival(evidence), like) == Alongside(evidence, like)
  {
    if evidence != [] {
      var init, last := evidence[..|evidence| - 1], evidence[|evidence| - 1];
      ByArrivalIsStableSort(init);
      InsertKeepsOrder(ByArrival(init), last);
      forall like ensures Alongside(ByArrival(evidence), like) == Alongside(evidence, like) {
        InsertIsStable(ByArrival(init), last, like);
      }
    }
  }

  lemma {:induction false} MissingInsert(items: seq<Discontinuity>, item: Discontinuity, stream: Stream)
    ensures Missing(Insert(items, item), stream) == Missing(items, stream) + OnStream(item, stream)
  {
    if items == [] {
      MissingNext([], item, stream);
      assert [] + [item] == [item];
    } else {
      var init, last := items[..|items| - 1], items[|items| - 1];
      MissingNext(init, last, stream);
      assert init + [last] == items;
      if NotAfter(last, item) {
        MissingNext(items, item, stream);
      } else {
        MissingInsert(init, item, stream);
        MissingNext(Insert(init, item), last, stream);
      }
    }
  }

  lemma {:induction false} MissingByArrival(evidence: seq<Discontinuity>, stream: Stream)
    ensures Missing(ByArrival(evidence), stream) == Missing(evidence, stream)
  {
    if evidence != [] {
      var n := |evidence| - 1;
      MissingByArrival(evidence[..n], stream);
      MissingInsert(ByArrival(evidence[..n]), evidence[n], stream);
    }
  }

  // ---------------------------------------------------------------- against true sequence numbers

  /** `extended` are the sequence numbers before the counter wrapped them (section 5.1 of RFC 3550). */
  ghost predicate Carries(packets: seq<Packet>, extended: seq<int>) {
    && |packets| == |extended|
    && forall i :: 0 <= i < |packets| ==> WrapsTo(extended[i], packets[i])
  }

  ghost predicate WrapsTo(extended: int, packet: Packet) {
    packet.sequence == extended % 0x10000
  }

  /** No packet is followed by one half the number space or more ahead of it. */
  ghost predicate StepsBelowHalf(extended: seq<int>) {
    forall i :: 0 < i < |extended| ==> extended[i] - extended[i - 1] < 0x8000
  }

  lemma PairReports(previous: Packet, current: Packet, from: int, to: int)
    requires WrapsTo(from, previous) && WrapsTo(to, current) && from < to
    ensures PairMissing(previous, current) <= to - from - 1
    ensures PairMissing(previous, current) == to - from - 1 <==> to - from < 0x8000
  {
    assert SequenceDelta(previous, current) == (to - from) % 0x10000;
  }

  /**
    Over a stream whose true sequence numbers increase, the reported counts sum to the packets that are
    really missing, however often the counter wrapped, exactly when every step is below half the number
    space; otherwise they fall short.
   */
  lemma {:induction false} MissingIsExact(packets: seq<Packet>, extended: seq<int>, stream: Stream)
    requires forall p :: p in packets ==> p.stream == stream
    requires packets != [] && Carries(packets, extended) && Increasing(extended)
    ensures var truth := extended[|extended| - 1] - extended[0] - (|extended| - 1);
            && Missing(StreamEvidence(packets), stream) <= truth
            && (Missing(StreamEvidence(packets), stream) == truth <==> StepsBelowHalf(extended))
  {
    var n := |packets|;
    if n >= 2 {
      var shorter := extended[..n - 1];
      assert Carries(packets[..n - 1], shorter) && Increasing(shorter);
      MissingIsExact(packets[..n - 1], shorter, stream);
      assert packets[n - 1].stream == stream;
      MissingPair(packets, stream);
      PairReports(packets[n - 2], packets[n - 1], extended[n - 2], extended[n - 1]);
      LastStep(extended);
    } else {
      assert StreamEvidence(packets) == [];
    }
  }

  lemma LastStep(extended: seq<int>)
    requires |extended| >= 2
    ensures var n := |extended|;
            StepsBelowHalf(extended) <==> StepsBelowHalf(extended[..n - 1]) && extended[n - 1] - extended[n - 2] < 0x8000
  {
    var n := |extended|;
    if StepsBelowHalf(extended[..n - 1]) && extended[n - 1] - extended[n - 2] < 0x8000 {
      forall i | 0 < i < n ensures extended[i] - extended[i - 1] < 0x8000 {
        if i < n - 1 { assert extended[..n - 1][i] == extended[i]; }
      }
    }
    if StepsBelowHalf(extended) {
      var shorter := extended[..n - 1];
      forall i | 0 < i < |shorter| ensures shorter[i] - shorter[i - 1] < 0x8000 {
        assert extended[i] - extended[i - 1] < 0x8000;
      }
    }
  }
}

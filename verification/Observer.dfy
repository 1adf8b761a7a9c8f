/**
  Buffering, splitting and delivery of observations: five streams in the observer, bounded batches on the
  way, and an ingest endpoint that drops timeline events it already has.
 */
module Observer {
  import opened Common

  datatype Kind = Metrics | AudioChunks | SipEvents | RtpStats | TimelineEvents

  type Channels = c: int | c > 0 witness 1

  datatype Format = Format(rate: int, channels: Channels)

  /**
    An observation.  Only timeline events have an identity that the endpoint looks at, and only audio chunks a
    format and a size in bytes; a stage is named by every audio chunk and by some metrics and events.
   */
  datatype Item = Item(id: string, stage: Option<string>, format: Format, size: nat, payload: int)

  function Limit(kind: Kind): nat {
    match kind
    case Metrics => 500
    case AudioChunks => 64
    case SipEvents => 64
    case RtpStats => 64
    case TimelineEvents => 128
  }

  datatype Batch = Batch(metrics: seq<Item>, audioChunks: seq<Item>, sipEvents: seq<Item>, rtpStats: seq<Item>,
                         timelineEvents: seq<Item>)
  {
    function Of(kind: Kind): seq<Item> {
      match kind
      case Metrics => metrics
      case AudioChunks => audioChunks
      case SipEvents => sipEvents
      case RtpStats => rtpStats
      case TimelineEvents => timelineEvents
    }

    function ItemCount(): nat {
      |metrics| + |audioChunks| + |sipEvents| + |rtpStats| + |timelineEvents|
    }

    function Plus(more: Batch): (r: Batch)
      ensures forall kind :: r.Of(kind) == Of(kind) + more.Of(kind)
    {
      Batch(metrics + more.metrics, audioChunks + more.audioChunks, sipEvents + more.sipEvents,
            rtpStats + more.rtpStats, timelineEvents + more.timelineEvents)
    }

    /** Each stream goes on from where the earlier one stopped. */
    predicate Extends(earlier: Batch) {
      forall kind :: earlier.Of(kind) <= Of(kind)
    }
  }

  const NOTHING := Batch([], [], [], [], [])

  lemma Transitive(a: Batch, b: Batch, c: Batch)
    requires b.Extends(a) && c.Extends(b)
    ensures c.Extends(a)
  {}

  /** Two batches are the same when each stream is. */
  lemma SameBatch(a: Batch, b: Batch)
    requires forall kind :: a.Of(kind) == b.Of(kind)
    ensures a == b
  {
    assert a.Of(Metrics) == b.Of(Metrics) && a.Of(AudioChunks) == b.Of(AudioChunks) && a.Of(SipEvents) == b.Of(SipEvents);
    assert a.Of(RtpStats) == b.Of(RtpStats) && a.Of(TimelineEvents) == b.Of(TimelineEvents);
  }

  lemma EmptyBatch(b: Batch)
    ensures b.ItemCount() == 0 <==> forall kind :: b.Of(kind) == []
  {
    if forall kind :: b.Of(kind) == [] { SameBatch(b, NOTHING); }
  }

  // ---------------------------------------------------------------- splitting

  function Min(a: int, b: int): int { if a < b then a else b }

  /** `items[index * limit : (index + 1) * limit]`, the bounds being cut to the length. */
  function Slice(items: seq<Item>, index: nat, limit: nat): (r: seq<Item>)
    ensures |r| <= limit
  {
    items[Min(index * limit, |items|)..Min(index * limit + limit, |items|)]
  }

  function BatchSlice(b: Batch, index: nat): (r: Batch)
    ensures forall kind :: r.Of(kind) == Slice(b.Of(kind), index, Limit(kind))
  {
    Batch(Slice(b.metrics, index, 500), Slice(b.audioChunks, index, 64), Slice(b.sipEvents, index, 64),
          Slice(b.rtpStats, index, 64), Slice(b.timelineEvents, index, 128))
  }

  function Needed(b: Batch, kind: Kind): nat {
    (|b.Of(kind)| + Limit(kind) - 1) / Limit(kind)
  }

  function Max(a: nat, b: nat): nat { if a < b then b else a }

  function BatchCount(b: Batch): nat {
    Max(1, Max(Needed(b, Metrics), Max(Needed(b, AudioChunks),
        Max(Needed(b, SipEvents), Max(Needed(b, RtpStats), Needed(b, TimelineEvents))))))
  }

  lemma CountCovers(b: Batch, kind: Kind)
    ensures |b.Of(kind)| <= BatchCount(b) * Limit(kind)
  {}

  /** Every index below the count still has items of the kind that decides the count. */
  lemma NoEmptySlice(b: Batch, index: nat)
    requires b.ItemCount() > 0 && index < BatchCount(b)
    ensures BatchSlice(b, index).ItemCount() > 0
  {
    var slice := BatchSlice(b, index);
    var kind := LargestNeed(b, index);
    assert slice.Of(kind) == Slice(b.Of(kind), index, Limit(kind)) != [];
    EmptyBatch(slice);
  }

  lemma LargestNeed(b: Batch, index: nat) returns (kind: Kind)
    requires b.ItemCount() > 0 && index < BatchCount(b)
    ensures |b.Of(kind)| > index * Limit(kind)
  {
    if |b.metrics| > index * 500 { kind := Metrics; }
    else if |b.audioChunks| > index * 64 { kind := AudioChunks; }
    else if |b.sipEvents| > index * 64 { kind := SipEvents; }
    else if |b.rtpStats| > index * 64 { kind := RtpStats; }
    else { kind := TimelineEvents; }
  }

  /** The batches from `index` on, which is what the split appends from there. */
  function Slices(b: Batch, index: nat, count: nat): seq<Batch>
    requires index <= count
  {
    seq(count - index, i requires 0 <= i => BatchSlice(b, index + i))
  }

  lemma SlicesFrom(b: Batch, index: nat, count: nat)
    requires index < count
    ensures Slices(b, index, count) == [BatchSlice(b, index)] + Slices(b, index + 1, count)
  {}

  function Split(b: Batch): seq<Batch> {
    if b.ItemCount() == 0 then [] else Slices(b, 0, BatchCount(b))
  }

  lemma SlicesUpTo(b: Batch, index: nat)
    ensures Slices(b, 0, index + 1) == Slices(b, 0, index) + [BatchSlice(b, index)]
  {}

  lemma SliceIsEmptyOnlyIfAllIs(b: Batch, index: nat)
    requires index < BatchCount(b)
    ensures BatchSlice(b, index).ItemCount() > 0 <==> b.ItemCount() > 0
  {
    if b.ItemCount() > 0 {
      NoEmptySlice(b, index);
    } else {
      EmptyBatch(b);
      EmptyBatch(BatchSlice(b, index));
    }
  }

  method BoundedBatches(b: Batch) returns (batches: seq<Batch>)
    ensures batches == Split(b)
  {
    batches := [];
    var count := BatchCount(b);
    for index := 0 to count
      invariant batches == if b.ItemCount() > 0 then Slices(b, 0, index) else []
    {
      var candidate := BatchSlice(b, index);
      SlicesUpTo(b, index);
      SliceIsEmptyOnlyIfAllIs(b, index);
      if candidate.ItemCount() > 0 {
        batches := batches + [candidate];
      }
    }
  }

  function Merged(batches: seq<Batch>): Batch {
    if batches == [] then NOTHING else batches[0].Plus(Merged(batches[1..]))
  }

  /** What is left of a stream after the first `index` batches. */
  function Rest(items: seq<Item>, index: nat, limit: nat): seq<Item> {
    items[Min(index * limit, |items|)..]
  }

  lemma RestSplits(items: seq<Item>, index: nat, limit: nat)
    ensures Rest(items, index, limit) == Slice(items, index, limit) + Rest(items, index + 1, limit)
  {
    assert (index + 1) * limit == index * limit + limit;
  }

  /** Merging the batches from any index on gives back exactly the items not yet sent, in order. */
  lemma {:induction false} MergedIsRest(b: Batch, index: nat, count: nat, kind: Kind)
    requires index <= count && |b.Of(kind)| <= count * Limit(kind)
    ensures Merged(Slices(b, index, count)).Of(kind) == Rest(b.Of(kind), index, Limit(kind))
    decreases count - index
  {
    if index == count {
      assert NOTHING.Of(kind) == [];
    } else {
      MergedIsRest(b, index + 1, count, kind);
      SlicesFrom(b, index, count);
      assert Slices(b, index, count)[1..] == Slices(b, index + 1, count);
      RestSplits(b.Of(kind), index, Limit(kind));
    }
  }

  /** The split loses nothing, respects every limit and contains no empty batch. */
  lemma SplitIsSound(b: Batch)
    ensures Merged(Split(b)) == b
    ensures forall batch, kind :: batch in Split(b) ==> |batch.Of(kind)| <= Limit(kind)
    ensures forall batch :: batch in Split(b) ==> batch.ItemCount() > 0
  {
    forall kind ensures Merged(Split(b)).Of(kind) == b.Of(kind) {
      SplitLosesNothing(b, kind);
    }
    SameBatch(Merged(Split(b)), b);
    forall i | 0 <= i < |Split(b)|
      ensures Split(b)[i].ItemCount() > 0 && forall kind :: |Split(b)[i].Of(kind)| <= Limit(kind)
    {
      SplitBatchIsSound(b, i);
    }
  }

  lemma SplitBatchIsSound(b: Batch, i: nat)
    requires i < |Split(b)|
    ensures Split(b)[i].ItemCount() > 0
    ensures forall kind :: |Split(b)[i].Of(kind)| <= Limit(kind)
  {
    assert Split(b)[i] == BatchSlice(b, i);
    NoEmptySlice(b, i);
  }

  lemma SplitLosesNothing(b: Batch, kind: Kind)
    ensures Merged(Split(b)).Of(kind) == b.Of(kind)
  {
    if b.ItemCount() > 0 {
      CountCovers(b, kind);
      MergedIsRest(b, 0, BatchCount(b), kind);
    } else {
      EmptyBatch(b);
      assert NOTHING.Of(kind) == [];
    }
  }
}

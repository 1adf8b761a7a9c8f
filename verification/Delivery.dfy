/**
  Exactly-once delivery of timeline events: the observer resends what was not acknowledged, and the ingest
  endpoint drops the events it already has.
 */
module Delivery {
  import opened Common
  import opened Observer

  ghost predicate DistinctIds(events: seq<Item>) {
    forall i, j :: 0 <= i < j < |events| ==> events[i].id != events[j].id
  }

  /** `len(ids) == len(set(ids))` */
  method IdsAreUnique(events: seq<Item>) returns (unique: bool)
    ensures unique <==> DistinctIds(events)
  {
    var ids: set<string> := {};
    for i := 0 to |events|
      invariant DistinctIds(events[..i])
      invariant forall id :: id in ids <==> exists j :: 0 <= j < i && events[j].id == id
    {
      if events[i].id in ids {
        return false;
      }
      ids := ids + {events[i].id};
    }
    assert events[..|events|] == events;
    return true;
  }

  function NotIn(events: seq<Item>, ids: set<string>): seq<Item> {
    if events == [] then []
    else (if events[0].id in ids then [] else [events[0]]) + NotIn(events[1..], ids)
  }

  function Ids(events: seq<Item>): set<string> {
    set e | e in events :: e.id
  }

  ghost predicate WithinLimits(b: Batch) {
    forall kind :: |b.Of(kind)| <= Limit(kind)
  }

  // ---------------------------------------------------------------- the endpoint

  /** The stages that a batch refers to, whatever the kind of item. */
  predicate StagesKnown(b: Batch, configured: set<string>) {
    && (forall i :: 0 <= i < |b.metrics| ==> b.metrics[i].stage.Some? ==> b.metrics[i].stage.value in configured)
    && (forall i :: 0 <= i < |b.audioChunks| ==> b.audioChunks[i].stage.Some? && b.audioChunks[i].stage.value in configured)
    && (forall i :: 0 <= i < |b.timelineEvents| ==>
          b.timelineEvents[i].stage.Some? ==> b.timelineEvents[i].stage.value in configured)
  }

  /** Decoded audio is not empty and consists of complete frames. */
  predicate WholeFrames(chunk: Item) {
    chunk.size > 0 && chunk.size % (2 * chunk.format.channels) == 0
  }

  /** One format per stage within the batch. */
  predicate OneFormat(chunks: seq<Item>) {
    forall i, j :: 0 <= i < j < |chunks| && chunks[i].stage == chunks[j].stage ==> chunks[i].format == chunks[j].format
  }

  /** And the format with which the stage's audio began. */
  predicate SameFormat(chunks: seq<Item>, formats: map<string, Format>) {
    forall i :: 0 <= i < |chunks| ==>
      chunks[i].stage.Some? && chunks[i].stage.value in formats ==> formats[chunks[i].stage.value] == chunks[i].format
  }

  /** The formats once the chunks are written. */
  function Formats(formats: map<string, Format>, chunks: seq<Item>): map<string, Format>
    decreases |chunks|
  {
    if chunks == [] then formats
    else
      var first := chunks[0];
      Formats(if first.stage.Some? && first.stage.value !in formats then formats[first.stage.value := first.format]
              else formats, chunks[1..])
  }

  /** An item that an endpoint with these stages and, in the end, these formats has no objection to. */
  predicate Conforms(kind: Kind, item: Item, configured: set<string>, agreed: map<string, Format>) {
    match kind
    case AudioChunks =>
      && item.stage.Some? && item.stage.value in configured
      && item.stage.value in agreed && agreed[item.stage.value] == item.format && WholeFrames(item)
    case Metrics => item.stage.Some? ==> item.stage.value in configured
    case TimelineEvents => item.stage.Some? ==> item.stage.value in configured
    case _ => true
  }

  ghost predicate AllConform(b: Batch, configured: set<string>, agreed: map<string, Format>) {
    forall kind, item :: item in b.Of(kind) ==> Conforms(kind, item, configured, agreed)
  }

  ghost predicate ConformThroughout(batches: seq<Batch>, configured: set<string>, agreed: map<string, Format>) {
    forall b :: b in batches ==> AllConform(b, configured, agreed)
  }

  lemma {:induction false} FormatsAgree(formats: map<string, Format>, chunks: seq<Item>, agreed: map<string, Format>)
    requires forall stage :: stage in formats ==> stage in agreed && agreed[stage] == formats[stage]
    requires forall chunk :: chunk in chunks ==>
      chunk.stage.Some? && chunk.stage.value in agreed && agreed[chunk.stage.value] == chunk.format
    ensures forall stage :: stage in Formats(formats, chunks) ==>
      stage in agreed && agreed[stage] == Formats(formats, chunks)[stage]
    decreases |chunks|
  {
    if chunks != [] {
      var first := chunks[0];
      assert first in chunks;
      FormatsAgree(if first.stage.value !in formats then formats[first.stage.value := first.format] else formats,
                   chunks[1..], agreed);
    }
  }

  /** What is new in a batch to an endpoint that knows these event ids. */
  function Fresh(b: Batch, known: set<string>): (r: Batch)
    ensures r.timelineEvents == NotIn(b.timelineEvents, known)
    ensures forall kind :: kind != TimelineEvents ==> r.Of(kind) == b.Of(kind)
  {
    b.(timelineEvents := NotIn(b.timelineEvents, known))
  }

  /** Each stage keeps the format its audio began in, and every chunk of the batch is in that of its stage. */
  lemma {:induction false} FormatsKept(formats: map<string, Format>, chunks: seq<Item>)
    requires OneFormat(chunks) && SameFormat(chunks, formats)
    requires forall i :: 0 <= i < |chunks| ==> chunks[i].stage.Some?
    ensures forall stage :: stage in formats ==>
      stage in Formats(formats, chunks) && Formats(formats, chunks)[stage] == formats[stage]
    ensures forall i :: 0 <= i < |chunks| ==>
      chunks[i].stage.value in Formats(formats, chunks)
      && Formats(formats, chunks)[chunks[i].stage.value] == chunks[i].format
    decreases |chunks|
  {
    if chunks != [] {
      var first := chunks[0];
      var next := if first.stage.value !in formats then formats[first.stage.value := first.format] else formats;
      assert OneFormat(chunks[1..]) && SameFormat(chunks[1..], next) by {
        forall i | 0 <= i < |chunks[1..]| ensures chunks[1..][i] == chunks[i + 1] {}
      }
      FormatsKept(next, chunks[1..]);
      forall i | 0 <= i < |chunks|
        ensures chunks[i].stage.value in Formats(formats, chunks)
        ensures Formats(formats, chunks)[chunks[i].stage.value] == chunks[i].format
      {
        if i > 0 { assert chunks[1..][i - 1] == chunks[i]; }
      }
    }
  }

  class IngestServer {
    const configured: set<string>
    /** Whether the run is still running. */
    var accepting: bool
    /** The lists of the stored run. */
    var stored: Batch
    /** The format in which each stage's audio began. */
    var formats: map<string, Format>

    constructor (configured: set<string>)
      ensures this.configured == configured && accepting && stored == NOTHING && formats == map[]
    {
      this.configured := configured;
      accepting, stored, formats := true, NOTHING, map[];
    }

    /** What validation lets through. */
    ghost predicate Sound(b: Batch) {
      b.ItemCount() > 0 && WithinLimits(b) && DistinctIds(b.timelineEvents)
    }

    /** What the handler then accepts. */
    predicate Accepts(b: Batch)
      reads this
    {
      && accepting && StagesKnown(b, configured)
      && (forall i :: 0 <= i < |b.audioChunks| ==> WholeFrames(b.audioChunks[i]))
      && OneFormat(b.audioChunks) && SameFormat(b.audioChunks, formats)
    }

    ghost predicate Agrees(agreed: map<string, Format>)
      reads this
    {
      forall stage :: stage in formats ==> stage in agreed && agreed[stage] == formats[stage]
    }

    /** It accepts observations, and has no objection to the items of the batch. */
    ghost predicate Welcomes(b: Batch, agreed: map<string, Format>)
      reads this
    {
      accepting && Agrees(agreed) && AllConform(b, configured, agreed)
    }

    method Validate(b: Batch) returns (sound: bool)
      ensures sound <==> Sound(b)
    {
      var unique := IdsAreUnique(b.timelineEvents);
      var fits := |b.metrics| <= 500 && |b.audioChunks| <= 64 && |b.sipEvents| <= 64 && |b.rtpStats| <= 64
                  && |b.timelineEvents| <= 128;
      assert fits <==> WithinLimits(b) by {
        assert b.Of(Metrics) == b.metrics && b.Of(AudioChunks) == b.audioChunks && b.Of(SipEvents) == b.sipEvents;
        assert b.Of(RtpStats) == b.rtpStats && b.Of(TimelineEvents) == b.timelineEvents;
      }
      return fits && b.ItemCount() > 0 && unique;
    }

    method Ingest(b: Batch) returns (result: Result<nat>)
      modifies this`stored, this`formats
      ensures Sound(b) && old(Accepts(b)) ==>
        && result == Ok(|b.timelineEvents|)
        && stored == old(stored).Plus(Fresh(b, Ids(old(stored).timelineEvents)))
        && formats == Formats(old(formats), b.audioChunks)
      ensures !(Sound(b) && old(Accepts(b))) ==>
        result.Err? && formats == old(formats) && stored == old(stored)
      ensures !Sound(b) ==> result == Err("unprocessable")
      ensures Sound(b) && !accepting ==> result == Err("run is not accepting observations")
      ensures Sound(b) && accepting && !StagesKnown(b, configured) ==> result == Err("unknown pipeline stages")
      ensures Sound(b) && accepting && StagesKnown(b, configured) ==>
        if forall i :: 0 <= i < |b.audioChunks| ==> WholeFrames(b.audioChunks[i]) then
          result.Err? ==> result.error == "audio format changed within stage"
        else
          result == Err("PCM16LE audio must contain complete channel frames")
      ensures result.Ok? <==>
        && accepting && 0 < b.ItemCount() && DistinctIds(b.timelineEvents) && WithinLimits(b)
        && (forall item :: item in b.metrics || item in b.audioChunks || item in b.timelineEvents ==>
              item.stage.Some? ==> item.stage.value in configured)
        && (forall chunk :: chunk in b.audioChunks ==>
              chunk.stage.Some? && chunk.size > 0 && chunk.size % (2 * chunk.format.channels) == 0)
        && (forall a, c :: a in b.audioChunks && c in b.audioChunks && a.stage == c.stage ==> a.format == c.format)
        && (forall chunk :: chunk in b.audioChunks && chunk.stage.Some? && chunk.stage.value in old(formats) ==>
              chunk.format == old(formats)[chunk.stage.value])
      ensures result.Ok? ==>
        && (forall stage :: stage in old(formats) ==> stage in formats && formats[stage] == old(formats)[stage])
        && (forall chunk :: chunk in b.audioChunks ==>
              chunk.stage.value in formats && formats[chunk.stage.value] == chunk.format)
    {
      var sound := Validate(b);
      if !sound {
        return Err("unprocessable");
      }
      if !accepting {
        return Err("run is not accepting observations");
      }
      if !StagesKnown(b, configured) {
        return Err("unknown pipeline stages");
      }
      if exists i :: 0 <= i < |b.audioChunks| && !WholeFrames(b.audioChunks[i]) {
        return Err("PCM16LE audio must contain complete channel frames");
      }
      if !OneFormat(b.audioChunks) || !SameFormat(b.audioChunks, formats) {
        return Err("audio format changed within stage");
      }
      FormatsKept(formats, b.audioChunks);
      formats := Formats(formats, b.audioChunks);
      stored := stored.Plus(Fresh(b, Ids(stored.timelineEvents)));
      return Ok(|b.timelineEvents|);
    }

    /** A batch of conforming items is accepted, and nothing that conforms becomes unacceptable by it. */
    lemma ConformingIsAccepted(b: Batch, agreed: map<string, Format>)
      requires Welcomes(b, agreed)
      ensures Accepts(b)
      ensures forall stage :: stage in Formats(formats, b.audioChunks) ==>
        stage in agreed && agreed[stage] == Formats(formats, b.audioChunks)[stage]
    {
      forall i | 0 <= i < |b.metrics| ensures b.metrics[i].stage.Some? ==> b.metrics[i].stage.value in configured {
        assert b.metrics[i] in b.Of(Metrics);
      }
      forall i | 0 <= i < |b.timelineEvents|
        ensures b.timelineEvents[i].stage.Some? ==> b.timelineEvents[i].stage.value in configured
      {
        assert b.timelineEvents[i] in b.Of(TimelineEvents);
      }
      forall i | 0 <= i < |b.audioChunks|
        ensures Conforms(AudioChunks, b.audioChunks[i], configured, agreed)
      {
        assert b.audioChunks[i] in b.Of(AudioChunks);
      }
      FormatsAgree(formats, b.audioChunks, agreed);
    }
  }

  /**
    Of the timeline events the endpoint has a prefix of what was observed, reaching at least as far as what
    was acknowledged; of the other streams it has everything acknowledged at least once.
   */
  ghost predicate Has(stored: Batch, sent: Batch, observed: Batch) {
    && Delivered(stored.timelineEvents, sent.timelineEvents, observed.timelineEvents)
    && (forall kind :: kind != TimelineEvents ==> multiset(sent.Of(kind)) <= multiset(stored.Of(kind)))
  }

  /** The endpoint has a prefix of what was observed, reaching at least as far as what was acknowledged. */
  ghost predicate Delivered(stored: seq<Item>, sent: seq<Item>, observed: seq<Item>) {
    stored <= observed && sent <= observed && |sent| <= |stored|
  }

  lemma {:induction false} NotInStretch(observed: seq<Item>, known: nat, from: nat, to: nat)
    requires DistinctIds(observed) && known <= |observed| && from <= to <= |observed|
    ensures NotIn(observed[from..to], Ids(observed[..known]))
         == observed[if known < from then from else if known < to then known else to..to]
    decreases |observed| - from
  {
    if from < to {
      var events := observed[from..to];
      assert events[1..] == observed[from + 1..to];
      NotInStretch(observed, known, from + 1, to);
      if from < known {
        assert observed[..known][from] == observed[from];
      } else {
        forall e | e in observed[..known] ensures e.id != observed[from].id {
          var i :| 0 <= i < known && observed[i] == e;
        }
      }
    }
  }

  /** Ingesting the next stretch of the observed sequence keeps the stored events a prefix of it. */
  lemma IngestKeepsPrefix(stored: seq<Item>, observed: seq<Item>, from: nat, to: nat)
    requires DistinctIds(observed) && stored <= observed && from <= |stored| && from <= to <= |observed|
    ensures var after := stored + NotIn(observed[from..to], Ids(stored));
            after == observed[..if |stored| < to then to else |stored|]
  {
    assert stored == observed[..|stored|];
    NotInStretch(observed, |stored|, from, to);
  }

  /** The same, for a batch that is the next unacknowledged part of what was observed. */
  lemma IngestDelivers(stored: seq<Item>, sent: seq<Item>, batch: seq<Item>, after: seq<Item>, observed: seq<Item>)
    requires DistinctIds(observed) && Delivered(stored, sent, observed)
    requires observed == sent + (batch + after)
    ensures DistinctIds(batch)
    ensures Delivered(stored + NotIn(batch, Ids(stored)), sent, observed)
    ensures Delivered(stored + NotIn(batch, Ids(stored)), sent + batch, observed)
  {
    var from, to := |sent|, |sent| + |batch|;
    StretchIs(observed, sent, batch, after);
    IngestKeepsPrefix(stored, observed, from, to);
    StretchIsDistinct(observed, from, to);
    PrefixesDeliver(observed, from, to, if |stored| < to then to else |stored|);
  }

  lemma StretchIs(observed: seq<Item>, sent: seq<Item>, batch: seq<Item>, after: seq<Item>)
    requires observed == sent + (batch + after)
    ensures observed[|sent|..|sent| + |batch|] == batch
    ensures observed[..|sent|] == sent && observed[..|sent| + |batch|] == sent + batch
  {}

  lemma StretchIsDistinct(observed: seq<Item>, from: nat, to: nat)
    requires DistinctIds(observed) && from <= to <= |observed|
    ensures DistinctIds(observed[from..to])
  {
    var batch := observed[from..to];
    forall i, j | 0 <= i < j < |batch| ensures batch[i].id != batch[j].id {
      assert observed[from + i] == batch[i] && observed[from + j] == batch[j];
    }
  }

  lemma PrefixesDeliver(observed: seq<Item>, from: nat, to: nat, stored: nat)
    requires from <= to <= stored <= |observed|
    ensures Delivered(observed[..stored], observed[..from], observed)
    ensures Delivered(observed[..stored], observed[..to], observed)
  {}

  // ---------------------------------------------------------------- the observer

  /** What became of a request: never applied; applied, but the answer was lost; or answered. */
  datatype SendOutcome = NotApplied | Unanswered | Answered

  predicate AllAnswered(outcomes: seq<SendOutcome>, n: nat) {
    n <= |outcomes| && forall i :: 0 <= i < n ==> outcomes[i] == Answered
  }

  /** What had been observed, acknowledged and stored at some moment. */
  datatype Past = Past(observed: Batch, sent: Batch, stored: Batch)

  class VoxBenchObserver {
    var metrics: seq<Item>
    var audioChunks: seq<Item>
    var sipEvents: seq<Item>
    var rtpStats: seq<Item>
    var timelineEvents: seq<Item>

    /** Everything ever observed, and everything that a send was acknowledged for. */
    ghost var observed: Batch
    ghost var sent: Batch

    function Pending(): Batch
      reads this
    {
      Batch(metrics, audioChunks, sipEvents, rtpStats, timelineEvents)
    }

    /** Nothing is lost or reordered: acknowledged, in flight and pending make up what was observed. */
    ghost predicate Conserves(inFlight: Batch)
      reads this
    {
      && (forall kind :: observed.Of(kind) == sent.Of(kind) + (inFlight.Of(kind) + Pending().Of(kind)))
      && DistinctIds(observed.timelineEvents)
    }

    ghost predicate Valid()
      reads this
    {
      Conserves(NOTHING)
    }

    /** Timeline events arrive exactly once, everything else at least once. */
    ghost predicate Arrived(server: IngestServer)
      reads this, server
    {
      Has(server.stored, sent, observed)
    }

    /** Nothing that had been observed or acknowledged, or had arrived, has been taken back. */
    ghost predicate GrownFrom(past: Past, server: IngestServer)
      reads this, server
    {
      observed.Extends(past.observed) && sent.Extends(past.sent) && server.stored.Extends(past.stored)
    }

    constructor ()
      ensures Valid() && observed == NOTHING && sent == NOTHING
    {
      metrics, audioChunks, sipEvents, rtpStats, timelineEvents := [], [], [], [], [];
      observed, sent := NOTHING, NOTHING;
    }

    /** Any of the observe methods; each appends to one or more streams under the lock. */
    method Observe(more: Batch, ghost inFlight: Batch)
      requires Conserves(inFlight)
      requires DistinctIds(observed.timelineEvents + more.timelineEvents)
      modifies this
      ensures Conserves(inFlight)
      ensures Pending() == old(Pending()).Plus(more)
      ensures observed == old(observed).Plus(more) && sent == old(sent)
    {
      metrics := metrics + more.metrics;
      audioChunks := audioChunks + more.audioChunks;
      sipEvents := sipEvents + more.sipEvents;
      rtpStats := rtpStats + more.rtpStats;
      timelineEvents := timelineEvents + more.timelineEvents;
      observed := observed.Plus(more);
      forall kind
        ensures observed.Of(kind) == sent.Of(kind) + (inFlight.Of(kind) + Pending().Of(kind))
      {
        assert old(observed).Of(kind) == sent.Of(kind) + (inFlight.Of(kind) + old(Pending()).Of(kind));
        assert Pending() == old(Pending()).Plus(more);
      }
    }

    /** What other threads observe while a send is under way.  Callers see only this contract. */
    method OthersObserve(ghost inFlight: Batch)
      requires Conserves(inFlight)
      modifies this
      ensures Conserves(inFlight) && sent == old(sent)
      ensures observed.Extends(old(observed))
    {
    }

    /** One request: the endpoint may apply it and the observer may still not learn of it. */
    method Post(server: IngestServer, b: Batch, outcome: SendOutcome, ghost agreed: map<string, Format>)
        returns (ok: bool)
      requires server.Sound(b)
      modifies server`stored, server`formats
      ensures server.stored == old(server.stored)
           || server.stored == old(server.stored).Plus(Fresh(b, Ids(old(server.stored).timelineEvents)))
      ensures ok ==>
        outcome == Answered && server.stored == old(server.stored).Plus(Fresh(b, Ids(old(server.stored).timelineEvents)))
      ensures old(server.Welcomes(b, agreed)) ==> server.Agrees(agreed) && (outcome == Answered ==> ok)
    {
      if outcome == NotApplied {
        return false;
      }
      if server.Welcomes(b, agreed) {
        server.ConformingIsAccepted(b, agreed);
      }
      var result := server.Ingest(b);
      return outcome == Answered && result.Ok?;
    }

    method Send(server: IngestServer, b: Batch, outcome: SendOutcome, ghost rest: Batch, ghost agreed: map<string, Format>)
        returns (ok: bool)
      requires Conserves(b.Plus(rest)) && Arrived(server) && WithinLimits(b) && b.ItemCount() > 0
      modifies server`stored, server`formats
      ensures Arrived(server) && server.stored.Extends(old(server.stored))
      ensures ok ==> outcome == Answered && Has(server.stored, sent.Plus(b), observed)
      ensures old(server.Welcomes(b, agreed)) ==> server.Agrees(agreed) && (outcome == Answered ==> ok)
    {
      NextStretch(b, rest);
      HasMore(server.stored, sent, b, rest.timelineEvents + timelineEvents, observed);
      ok := Post(server, b, outcome, agreed);
    }

    /** Whatever the endpoint already had of the batch, ingesting it does no harm and delivers it. */
    lemma HasMore(stored: Batch, sent: Batch, b: Batch, after: seq<Item>, observed: Batch)
      requires Has(stored, sent, observed) && DistinctIds(observed.timelineEvents)
      requires observed.timelineEvents == sent.timelineEvents + (b.timelineEvents + after)
      ensures DistinctIds(b.timelineEvents)
      ensures var now := stored.Plus(Fresh(b, Ids(stored.timelineEvents)));
              Has(now, sent, observed) && Has(now, sent.Plus(b), observed) && now.Extends(stored)
    {
      var now := stored.Plus(Fresh(b, Ids(stored.timelineEvents)));
      IngestDelivers(stored.timelineEvents, sent.timelineEvents, b.timelineEvents, after, observed.timelineEvents);
      forall kind | kind != TimelineEvents
        ensures multiset(sent.Of(kind)) <= multiset(now.Of(kind))
        ensures multiset(sent.Plus(b).Of(kind)) <= multiset(now.Of(kind))
      {
        ReceivedMore(sent.Of(kind), b.Of(kind), stored.Of(kind));
      }
    }

    lemma ReceivedMore(acknowledged: seq<Item>, more: seq<Item>, received: seq<Item>)
      requires multiset(acknowledged) <= multiset(received)
      ensures multiset(acknowledged) <= multiset(received + more)
      ensures multiset(acknowledged + more) <= multiset(received + more)
    {
    }

    /** The batch in flight is what comes next after what was acknowledged. */
    lemma NextStretch(b: Batch, rest: Batch)
      requires Conserves(b.Plus(rest))
      ensures observed.timelineEvents
           == sent.timelineEvents + (b.timelineEvents + (rest.timelineEvents + timelineEvents))
    {
      assert observed.Of(TimelineEvents)
          == sent.Of(TimelineEvents) + (b.Plus(rest).Of(TimelineEvents) + Pending().Of(TimelineEvents));
      ConcatAssociates(b.timelineEvents, rest.timelineEvents, timelineEvents);
    }

    /** `merged` is in flight, `head` is its next batch. */
    lemma TakeNext(head: Batch, rest: Batch)
      requires Conserves(head.Plus(rest))
      ensures forall kind ::
        observed.Of(kind) == sent.Plus(head).Of(kind) + (rest.Of(kind) + Pending().Of(kind))
    {
      forall kind
        ensures observed.Of(kind) == sent.Plus(head).Of(kind) + (rest.Of(kind) + Pending().Of(kind))
      {
        assert observed.Of(kind) == sent.Of(kind) + (head.Plus(rest).Of(kind) + Pending().Of(kind));
      }
    }

    /** Acknowledged and still in flight make up what had been observed when the flush began. */
    ghost predicate Covers(rest: Batch, before: Batch)
      reads this
    {
      forall kind :: before.Of(kind) == sent.Of(kind) + rest.Of(kind)
    }

    lemma CoversNext(head: Batch, rest: Batch, before: Batch)
      requires Covers(head.Plus(rest), before)
      ensures forall kind :: before.Of(kind) == sent.Plus(head).Of(kind) + rest.Of(kind)
    {
      forall kind ensures before.Of(kind) == sent.Plus(head).Of(kind) + rest.Of(kind) {
        assert before.Of(kind) == sent.Of(kind) + head.Plus(rest).Of(kind);
        ConcatAssociates(sent.Of(kind), head.Of(kind), rest.Of(kind));
      }
    }

    /** With nothing left in flight, all that had been observed is acknowledged, and stored. */
    lemma AllSent(server: IngestServer, before: Batch)
      requires Valid() && Arrived(server) && Covers(NOTHING, before)
      ensures forall kind :: sent.Of(kind) == before.Of(kind)
      ensures observed == before ==> server.stored.timelineEvents == observed.timelineEvents && Pending() == NOTHING
    {
      forall kind ensures sent.Of(kind) == before.Of(kind) {
        assert before.Of(kind) == sent.Of(kind) + NOTHING.Of(kind);
        assert NOTHING.Of(kind) == [];
      }
      if observed == before {
        assert sent.Of(TimelineEvents) == before.Of(TimelineEvents);
        forall kind ensures Pending().Of(kind) == NOTHING.Of(kind) {
          assert observed.Of(kind) == sent.Of(kind) + (NOTHING.Of(kind) + Pending().Of(kind));
          assert NOTHING.Of(kind) == [];
        }
        SameBatch(Pending(), NOTHING);
      }
    }

    /** One round of the flush: others observe before and after the request; success is acknowledged. */
    method SendNext(server: IngestServer, head: Batch, outcome: SendOutcome, ghost rest: Batch, ghost before: Batch,
                    ghost past: Past, ghost agreed: map<string, Format>) returns (ok: bool)
      requires Conserves(head.Plus(rest)) && Covers(head.Plus(rest), before)
      requires Arrived(server) && GrownFrom(past, server) && WithinLimits(head) && head.ItemCount() > 0
      modifies this, server`stored, server`formats
      ensures Arrived(server) && GrownFrom(past, server)
      ensures ok ==> Conserves(rest) && Covers(rest, before) && sent == old(sent).Plus(head) && outcome == Answered
      ensures !ok ==> Conserves(head.Plus(rest)) && Covers(head.Plus(rest), before) && sent == old(sent)
      ensures old(server.Welcomes(head, agreed)) ==> server.Agrees(agreed) && (outcome == Answered ==> ok)
    {
      OthersObserve(head.Plus(rest));
      StillHas(server.stored, sent, old(observed), observed);
      ok := Send(server, head, outcome, rest, agreed);
      ghost var acknowledged := if ok then sent.Plus(head) else sent;
      ghost var observedThen := observed;
      OthersObserve(head.Plus(rest));
      StillHas(server.stored, acknowledged, observedThen, observed);
      if ok {
        TakeNext(head, rest);
        CoversNext(head, rest, before);
        sent := acknowledged;
      }
      Transitive(past.observed, old(observed), observed);
      Transitive(past.sent, old(sent), sent);
      Transitive(past.stored, old(server.stored), server.stored);
    }

    lemma StillHas(stored: Batch, sent: Batch, observedThen: Batch, observedNow: Batch)
      requires Has(stored, sent, observedThen) && observedNow.Extends(observedThen)
      ensures Has(stored, sent, observedNow)
    {
      assert observedThen.Of(TimelineEvents) <= observedNow.Of(TimelineEvents);
    }

    /** The unsent suffix goes back to the front of what is pending. */
    method Restore(unsent: Batch)
      requires Conserves(unsent)
      modifies this
      ensures Valid() && observed == old(observed) && sent == old(sent)
      ensures Pending() == unsent.Plus(old(Pending()))
    {
      metrics := unsent.metrics + metrics;
      audioChunks := unsent.audioChunks + audioChunks;
      sipEvents := unsent.sipEvents + sipEvents;
      rtpStats := unsent.rtpStats + rtpStats;
      timelineEvents := unsent.timelineEvents + timelineEvents;
      forall kind
        ensures observed.Of(kind) == sent.Of(kind) + (NOTHING.Of(kind) + Pending().Of(kind))
      {
        assert observed.Of(kind) == sent.Of(kind) + (unsent.Of(kind) + old(Pending()).Of(kind));
        assert Pending() == unsent.Plus(old(Pending()));
        assert NOTHING.Of(kind) == [];
      }
    }

    /** Everything pending moves into flight. */
    method TakeAll() returns (batch: Batch)
      requires Valid()
      modifies this
      ensures batch == old(Pending()) && Pending() == NOTHING
      ensures observed == old(observed) && sent == old(sent)
      ensures Conserves(batch) && Covers(batch, observed)
    {
      batch := Pending();
      metrics, audioChunks, sipEvents, rtpStats, timelineEvents := [], [], [], [], [];
      forall kind
        ensures observed.Of(kind) == sent.Of(kind) + (batch.Of(kind) + Pending().Of(kind))
        ensures observed.Of(kind) == sent.Of(kind) + batch.Of(kind)
      {
        assert observed.Of(kind) == sent.Of(kind) + (NOTHING.Of(kind) + old(Pending()).Of(kind));
        assert NOTHING.Of(kind) == [];
        assert Pending() == NOTHING;
      }
    }

    /** A round that fails puts what is unsent back. */
    method SendOrRestore(server: IngestServer, head: Batch, outcome: SendOutcome, rest: Batch, ghost before: Batch,
                         ghost past: Past, ghost agreed: map<string, Format>) returns (ok: bool)
      requires Conserves(head.Plus(rest)) && Covers(head.Plus(rest), before)
      requires Arrived(server) && GrownFrom(past, server) && WithinLimits(head) && head.ItemCount() > 0
      modifies this, server`stored, server`formats
      ensures Arrived(server) && GrownFrom(past, server)
      ensures ok ==> Conserves(rest) && Covers(rest, before) && sent == old(sent).Plus(head) && outcome == Answered
      ensures !ok ==> Valid() && sent == old(sent)
      ensures old(server.Welcomes(head, agreed)) ==> server.Agrees(agreed) && (outcome == Answered ==> ok)
    {
      ok := SendNext(server, head, outcome, rest, before, past, agreed);
      if !ok {
        Restore(head.Plus(rest));
      }
    }

    /** The loop over the batches.  At the first failure the unsent suffix is restored. */
    method SendAll(server: IngestServer, batches: seq<Batch>, outcomes: seq<SendOutcome>, ghost before: Batch,
                   ghost agreed: map<string, Format>) returns (result: Result<nat>)
      requires Conserves(Merged(batches)) && Covers(Merged(batches), before) && Arrived(server)
      requires forall b :: b in batches ==> WithinLimits(b) && b.ItemCount() > 0
      modifies this, server`stored, server`formats
      ensures Valid() && Arrived(server) && GrownFrom(old(Past(observed, sent, server.stored)), server)
      ensures result.Err? ==> result.error == "send failed"
      ensures result.Ok? ==>
        result.value == Merged(batches).ItemCount() && Covers(NOTHING, before) && AllAnswered(outcomes, |batches|)
      ensures AllAnswered(outcomes, |batches|) && ConformThroughout(batches, server.configured, agreed) ==>
        old(server.accepting && server.Agrees(agreed)) ==> result.Ok?
    {
      ghost var past := Past(observed, sent, server.stored);
      var sentCount := 0;
      assert batches[0..] == batches;
      ghost var welcome := server.accepting && server.Agrees(agreed) && ConformThroughout(batches, server.configured, agreed);
      for index := 0 to |batches|
        invariant Conserves(Merged(batches[index..])) && Covers(Merged(batches[index..]), before)
        invariant Arrived(server) && GrownFrom(past, server)
        invariant AllAnswered(outcomes, index)
        invariant welcome ==> server.Agrees(agreed)
        invariant sentCount + Merged(batches[index..]).ItemCount() == Merged(batches).ItemCount()
      {
        assert batches[index..][1..] == batches[index + 1..];
        assert welcome ==> server.Welcomes(batches[index], agreed) by { assert batches[index] in batches; }
        var outcome := if index < |outcomes| then outcomes[index] else NotApplied;
        var rest := Merged(batches[index + 1..]);
        var ok := SendOrRestore(server, batches[index], outcome, rest, before, past, agreed);
        if !ok {
          return Err("send failed");
        }
        sentCount := sentCount + batches[index].ItemCount();
      }
      return Ok(sentCount);
    }

    /**
      Sends everything pending, batch by batch, while others go on observing.  `outcomes` says what becomes
      of each request.  Whatever fails, nothing is lost: what was observed stays observed, and each item is
      either acknowledged, and then has arrived, or pending, in order.  Success means that all that had been
      observed has arrived.
     */
    method Flush(server: IngestServer, outcomes: seq<SendOutcome>, ghost agreed: map<string, Format>)
        returns (result: Result<nat>)
      requires Valid() && Arrived(server)
      modifies this, server`stored, server`formats
      ensures Valid() && Arrived(server) && GrownFrom(old(Past(observed, sent, server.stored)), server)
      ensures result.Err? ==> result.error == "send failed"
      ensures result.Ok? ==>
        result.value == old(Pending()).ItemCount() && forall kind :: sent.Of(kind) == old(observed).Of(kind)
      ensures result.Ok? && observed == old(observed) ==>
        server.stored.timelineEvents == observed.timelineEvents && Pending() == NOTHING
      ensures old(server.Welcomes(Pending(), agreed)) && AllAnswered(outcomes, |Split(old(Pending()))|) ==> result.Ok?
    {
      ghost var before := observed;
      var batch := TakeAll();
      SplitIsSound(batch);
      if batch.ItemCount() == 0 {
        result := Ok(0);
      } else {
        var batches := BoundedBatches(batch);
        if AllConform(batch, server.configured, agreed) {
          SplitConforms(batch, server.configured, agreed);
        }
        result := SendAll(server, batches, outcomes, before, agreed);
      }
      if result.Ok? {
        AllSent(server, before);
      }
    }
  }

  lemma SplitConforms(b: Batch, configured: set<string>, agreed: map<string, Format>)
    requires AllConform(b, configured, agreed)
    ensures ConformThroughout(Split(b), configured, agreed)
  {
    forall i | 0 <= i < |Split(b)| ensures AllConform(Split(b)[i], configured, agreed) {
      SliceConforms(b, i, configured, agreed);
    }
  }

  lemma SliceConforms(b: Batch, i: nat, configured: set<string>, agreed: map<string, Format>)
    requires AllConform(b, configured, agreed)
    ensures AllConform(BatchSlice(b, i), configured, agreed)
  {
    forall kind, item | item in BatchSlice(b, i).Of(kind) ensures Conforms(kind, item, configured, agreed) {
      assert item in Slice(b.Of(kind), i, Limit(kind));
      SliceIsPart(b.Of(kind), i, Limit(kind), item);
    }
  }

  lemma SliceIsPart(items: seq<Item>, index: nat, limit: nat, item: Item)
    requires item in Slice(items, index, limit)
    ensures item in items
  {}
}

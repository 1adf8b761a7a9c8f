/**
  Timeline evidence of a run: provider responses, correlated activities, and the assignment of playbacks
  to the responses that wait for them.  Times are integers from an arbitrary origin; aliases and event
  ids are integers, whose order stands for the order of the strings.
 */
module Evidence {
  import opened Common
  import opened Sorting

  /** Time since the start of the run, never negative. */
  function Relative(ts: int, startedAt: int): nat {
    if ts < startedAt then 0 else ts - startedAt
  }

  // ---------------------------------------------------------------- provider responses

  datatype MetricName = ResponseStarted | ResponseDone | OtherMetric
  datatype Metric = Metric(ts: int, name: MetricName, value: real)

  datatype Observation = Observation(ts: int, index: nat, started: bool)

  datatype Response = Response(index: nat, startObservation: nat, doneObservation: Option<nat>,
                               start: nat, end: nat)
  {
    predicate Completed() { doneObservation.Some? }
  }

  /** The response observations among the first `n` metrics, with their metric indices. */
  function Observed(metrics: seq<Metric>, n: nat): seq<Observation>
    requires n <= |metrics|
  {
    if n == 0 then []
    else
      var metric := metrics[n - 1];
      Observed(metrics, n - 1)
      + if metric.name != OtherMetric && metric.value > 0.0
        then [Observation(metric.ts, n - 1, metric.name == ResponseStarted)] else []
  }

  function ObservationKey(o: Observation): Key { (o.ts, o.index) }

  function ResponseKey(r: Response): Key { (r.start, r.index) }

  function StartsBefore(observations: seq<Observation>, n: nat): nat
    requires n <= |observations|
  {
    if n == 0 then 0 else StartsBefore(observations, n - 1) + if observations[n - 1].started then 1 else 0
  }

  /** The response that starts at position `p`: the very next observation ends it, whatever it is. */
  function ResponseAt(observations: seq<Observation>, p: nat, startedAt: int, timelineEnd: nat): Response
    requires p < |observations|
  {
    var start := Relative(observations[p].ts, startedAt);
    var last := p + 1 == |observations|;
    var end := if last then timelineEnd else Relative(observations[p + 1].ts, startedAt);
    Response(StartsBefore(observations, p), observations[p].index,
             if last || observations[p + 1].started then None else Some(observations[p + 1].index),
             start, if end < start then start else end)
  }

  /** One response for each start among the first `n` observations. */
  function Responses(observations: seq<Observation>, n: nat, startedAt: int, timelineEnd: nat): seq<Response>
    requires n <= |observations|
  {
    if n == 0 then []
    else
      Responses(observations, n - 1, startedAt, timelineEnd)
      + if observations[n - 1].started then [ResponseAt(observations, n - 1, startedAt, timelineEnd)] else []
  }

  function ResponsesOf(metrics: seq<Metric>, startedAt: int, timelineEnd: nat): seq<Response> {
    var observations := Sort(Observed(metrics, |metrics|), ObservationKey);
    Responses(observations, |observations|, startedAt, timelineEnd)
  }

  /** The loop over the ordered observations. */
  method PairResponses(observations: seq<Observation>, startedAt: int, timelineEnd: nat) returns (responses: seq<Response>)
    ensures responses == Responses(observations, |observations|, startedAt, timelineEnd)
  {
    responses := [];
    var active: Option<(nat, nat, nat)> := None;
    var nextIndex := 0;
    for i := 0 to |observations|
      invariant nextIndex == StartsBefore(observations, i)
      invariant active.Some? <==> i > 0 && observations[i - 1].started
      invariant active.Some? ==>
        active.value == (nextIndex - 1, observations[i - 1].index, Relative(observations[i - 1].ts, startedAt))
      invariant responses == Responses(observations, if active.Some? then i - 1 else i, startedAt, timelineEnd)
    {
      var at := Relative(observations[i].ts, startedAt);
      if observations[i].started {
        if active.Some? {
          var (index, observation, start) := active.value;
          responses := responses + [Response(index, observation, None, start, if at < start then start else at)];
        }
        active := Some((nextIndex, observations[i].index, at));
        nextIndex := nextIndex + 1;
      } else if active.Some? {
        var (index, observation, start) := active.value;
        responses := responses
          + [Response(index, observation, Some(observations[i].index), start, if at < start then start else at)];
        active := None;
      }
    }
    if active.Some? {
      var (index, observation, start) := active.value;
      responses := responses + [Response(index, observation, None, start, if timelineEnd < start then start else timelineEnd)];
    }
  }

  /** `at` is the time since the start of the run, or 0 if the event is from before it. */
  predicate IsSinceStart(at: nat, ts: int, startedAt: int) {
    (ts >= startedAt ==> at == ts - startedAt) && (ts <= startedAt ==> at == 0)
  }

  /** The later of the two. */
  predicate IsLater(end: nat, start: nat, other: int) {
    end >= start && end >= other && (end == start || end == other)
  }

  /** The metric at that index is a positive observation of that name. */
  predicate Observes(metrics: seq<Metric>, index: int, name: MetricName) {
    0 <= index < |metrics| && metrics[index].name == name && metrics[index].value > 0.0
  }

  /** Observations are the positive start and done metrics, each once. */
  lemma {:induction false} ObservedIs(metrics: seq<Metric>, n: nat)
    requires n <= |metrics|
    ensures forall o :: o in Observed(metrics, n) <==>
      && o.index < n && o.ts == metrics[o.index].ts
      && Observes(metrics, o.index, if o.started then ResponseStarted else ResponseDone)
    ensures Distinct(Observed(metrics, n))
  {
    if n > 0 { ObservedIs(metrics, n - 1); }
  }

  /** Earlier in time, or at the same time and earlier among the metrics. */
  predicate Precedes(metrics: seq<Metric>, a: int, b: int)
    requires 0 <= a < |metrics| && 0 <= b < |metrics|
  {
    metrics[a].ts < metrics[b].ts || (metrics[a].ts == metrics[b].ts && a < b)
  }

  predicate IsObserved(metrics: seq<Metric>, index: int) {
    Observes(metrics, index, ResponseStarted) || Observes(metrics, index, ResponseDone)
  }

  /** `next` is the first observation after `start`. */
  ghost predicate IsNext(metrics: seq<Metric>, start: nat, next: nat)
    requires start < |metrics|
  {
    && IsObserved(metrics, next) && Precedes(metrics, start, next)
    && forall other :: IsObserved(metrics, other) && Precedes(metrics, start, other) && other != next ==>
         Precedes(metrics, next, other)
  }

  ghost predicate IsLast(metrics: seq<Metric>, start: nat)
    requires start < |metrics|
  {
    forall other :: IsObserved(metrics, other) ==> !Precedes(metrics, start, other)
  }

  /** A response starts at a positive start metric; the next observation ends it, or the end of the timeline does. */
  ghost predicate IsResponse(r: Response, metrics: seq<Metric>, startedAt: int, timelineEnd: nat) {
    && Observes(metrics, r.startObservation, ResponseStarted)
    && IsSinceStart(r.start, metrics[r.startObservation].ts, startedAt)
    && ((IsLast(metrics, r.startObservation) && r.doneObservation.None? && IsLater(r.end, r.start, timelineEnd))
        || exists next :: EndsAt(r, metrics, next, startedAt))
  }

  ghost predicate EndsAt(r: Response, metrics: seq<Metric>, next: nat, startedAt: int) {
    && r.startObservation < |metrics| && IsNext(metrics, r.startObservation, next)
    && r.doneObservation == (if metrics[next].name == ResponseDone then Some(next) else None)
    && IsLater(r.end, r.start, metrics[next].ts - startedAt)
  }

  /** All observations of the metrics, sorted. */
  ghost predicate AreObservations(observations: seq<Observation>, metrics: seq<Metric>) {
    && (forall o :: o in observations ==>
          && o.index < |metrics| && o.ts == metrics[o.index].ts
          && Observes(metrics, o.index, if o.started then ResponseStarted else ResponseDone))
    && (forall index :: IsObserved(metrics, index) ==>
          exists i :: 0 <= i < |observations| && observations[i].index == index)
    && SortedBy(observations, ObservationKey)
    && (forall i, j :: 0 <= i < j < |observations| ==> observations[i].index != observations[j].index)
  }

  lemma {:induction false} ResponsesAre(observations: seq<Observation>, n: nat, metrics: seq<Metric>, startedAt: int,
                                        timelineEnd: nat)
    requires n <= |observations| && AreObservations(observations, metrics)
    ensures forall r :: r in Responses(observations, n, startedAt, timelineEnd) ==>
      IsResponse(r, metrics, startedAt, timelineEnd)
    ensures forall i :: 0 <= i < n && observations[i].started ==>
      exists r :: r in Responses(observations, n, startedAt, timelineEnd) && r.startObservation == observations[i].index
  {
    if n > 0 {
      ResponsesAre(observations, n - 1, metrics, startedAt, timelineEnd);
      var p := n - 1;
      var earlier := Responses(observations, p, startedAt, timelineEnd);
      var now := Responses(observations, n, startedAt, timelineEnd);
      assert forall r :: r in earlier ==> r in now;
      if observations[p].started {
        var r := ResponseAt(observations, p, startedAt, timelineEnd);
        assert now == earlier + [r] && r in now;
        ResponseAtIs(observations, p, metrics, startedAt, timelineEnd);
      } else {
        assert now == earlier;
      }
    }
  }

  lemma PlacesPrecede(observations: seq<Observation>, metrics: seq<Metric>, i: nat, j: nat)
    requires AreObservations(observations, metrics) && i < |observations| && j < |observations|
    ensures observations[i].index < |metrics| && observations[j].index < |metrics|
    ensures i < j <==> Precedes(metrics, observations[i].index, observations[j].index)
  {
    assert observations[i] in observations && observations[j] in observations;
    if i < j { assert AtMost(ObservationKey(observations[i]), ObservationKey(observations[j])); }
    if j < i { assert AtMost(ObservationKey(observations[j]), ObservationKey(observations[i])); }
  }

  lemma ResponseAtIs(observations: seq<Observation>, p: nat, metrics: seq<Metric>, startedAt: int, timelineEnd: nat)
    requires p < |observations| && observations[p].started && AreObservations(observations, metrics)
    ensures IsResponse(ResponseAt(observations, p, startedAt, timelineEnd), metrics, startedAt, timelineEnd)
  {
    var r := ResponseAt(observations, p, startedAt, timelineEnd);
    assert observations[p] in observations;
    if p + 1 == |observations| {
      forall other | IsObserved(metrics, other) ensures !Precedes(metrics, observations[p].index, other) {
        var i :| 0 <= i < |observations| && observations[i].index == other;
        PlacesPrecede(observations, metrics, p, i);
      }
    } else {
      var next := observations[p + 1].index;
      assert observations[p + 1] in observations;
      PlacesPrecede(observations, metrics, p, p + 1);
      forall other | IsObserved(metrics, other) && Precedes(metrics, observations[p].index, other) && other != next
        ensures Precedes(metrics, next, other)
      {
        var i :| 0 <= i < |observations| && observations[i].index == other;
        PlacesPrecede(observations, metrics, p, i);
        PlacesPrecede(observations, metrics, p + 1, i);
      }
      assert EndsAt(r, metrics, next, startedAt);
    }
  }

  /** Every positive start metric of a run makes a response, and each response is of such a metric. */
  lemma ResponsesAreOfMetrics(metrics: seq<Metric>, startedAt: int, timelineEnd: nat)
    ensures forall r :: r in ResponsesOf(metrics, startedAt, timelineEnd) ==>
      IsResponse(r, metrics, startedAt, timelineEnd)
    ensures forall index :: Observes(metrics, index, ResponseStarted) ==>
      exists r :: r in ResponsesOf(metrics, startedAt, timelineEnd) && r.startObservation == index
  {
    var found := Observed(metrics, |metrics|);
    var observations := Sort(found, ObservationKey);
    SortedAreObservations(metrics);
    ResponsesAre(observations, |observations|, metrics, startedAt, timelineEnd);
    forall index | Observes(metrics, index, ResponseStarted)
      ensures exists r :: r in ResponsesOf(metrics, startedAt, timelineEnd) && r.startObservation == index
    {
      assert IsObserved(metrics, index);
      var i :| 0 <= i < |observations| && observations[i].index == index;
      assert observations[i] in observations;
    }
  }

  lemma SortedAreObservations(metrics: seq<Metric>)
    ensures AreObservations(Sort(Observed(metrics, |metrics|), ObservationKey), metrics)
  {
    var found := Observed(metrics, |metrics|);
    ObservedIs(metrics, |metrics|);
    SortSorts(found, ObservationKey);
    PermutedAreObservations(found, Sort(found, ObservationKey), metrics);
  }

  lemma PermutedAreObservations(found: seq<Observation>, observations: seq<Observation>, metrics: seq<Metric>)
    requires multiset(observations) == multiset(found) && Distinct(found) && SortedBy(observations, ObservationKey)
    requires forall o :: o in found <==>
      && o.index < |metrics| && o.ts == metrics[o.index].ts
      && Observes(metrics, o.index, if o.started then ResponseStarted else ResponseDone)
    ensures AreObservations(observations, metrics)
  {
    DistinctPermutation(found, observations);
    SameElements(found, observations);
    forall index | IsObserved(metrics, index)
      ensures exists i :: 0 <= i < |observations| && observations[i].index == index
    {
      var o := Observation(metrics[index].ts, index, Observes(metrics, index, ResponseStarted));
      assert o in observations;
      var i :| 0 <= i < |observations| && observations[i] == o;
    }
    forall i, j | 0 <= i < j < |observations| ensures observations[i].index != observations[j].index {
      assert observations[i] in observations && observations[j] in observations;
      assert observations[i] != observations[j];
    }
  }

  method ProviderResponses(metrics: seq<Metric>, startedAt: int, timelineEnd: nat) returns (responses: seq<Response>)
    ensures responses == ResponsesOf(metrics, startedAt, timelineEnd)
  {
    var observations := Sort(Observed(metrics, |metrics|), ObservationKey);
    responses := PairResponses(observations, startedAt, timelineEnd);
    SortSorts(Observed(metrics, |metrics|), ObservationKey);
    ResponsesOrdered(observations, |observations|, startedAt, timelineEnd);
    SortSorted(responses, ResponseKey);
    responses := Sort(responses, ResponseKey);
  }

  /** Responses are numbered in order, do not overlap, and there is one for each start. */
  ghost predicate WellOrdered(responses: seq<Response>) {
    && (forall i :: 0 <= i < |responses| ==> responses[i].index == i && responses[i].start <= responses[i].end)
    && (forall i, j :: 0 <= i < j < |responses| ==> responses[i].start <= responses[j].start)
    && (forall i, j :: 0 <= i < j < |responses| ==> responses[i].end <= responses[j].start)
  }

  ghost predicate EndBy(responses: seq<Response>, at: int) {
    forall i :: 0 <= i < |responses| ==> responses[i].end <= at
  }

  lemma {:induction false} ResponsesOrdered(observations: seq<Observation>, n: nat, startedAt: int, timelineEnd: nat)
    requires n <= |observations|
    requires SortedBy(observations, ObservationKey)
    ensures var responses := Responses(observations, n, startedAt, timelineEnd);
            && |responses| == StartsBefore(observations, n)
            && WellOrdered(responses)
            && SortedBy(responses, ResponseKey)
            && (n < |observations| ==> EndBy(responses, Relative(observations[n].ts, startedAt)))
  {
    if n > 0 {
      ResponsesOrdered(observations, n - 1, startedAt, timelineEnd);
      if observations[n - 1].started {
        NextResponse(Responses(observations, n - 1, startedAt, timelineEnd),
                     ResponseAt(observations, n - 1, startedAt, timelineEnd));
      }
      if n < |observations| {
        assert AtMost(ObservationKey(observations[n - 1]), ObservationKey(observations[n]));
      }
    }
  }

  lemma NextResponse(responses: seq<Response>, next: Response)
    requires WellOrdered(responses) && SortedBy(responses, ResponseKey) && EndBy(responses, next.start)
    requires next.index == |responses| && next.start <= next.end
    ensures WellOrdered(responses + [next]) && SortedBy(responses + [next], ResponseKey)
  {}

  // ---------------------------------------------------------------- correlated activities

  datatype EventName = StartName | StopName | OtherName
  datatype Event = Event(id: int, name: EventName, alias: Option<int>, ts: int)

  datatype Activity = Activity(alias: int, startEvent: Event, stopEvent: Option<Event>, start: nat, end: nat)

  function EventKey(e: Event): Key { (e.ts, e.id) }

  function ActivityKey(a: Activity): Key { (a.start, a.alias) }

  /** The start and stop events of one alias, in the order of the run. */
  function Correlated(events: seq<Event>, alias: int): (r: seq<Event>)
    ensures forall e :: e in r <==> e in events && e.alias == Some(alias) && !e.name.OtherName?
  {
    if events == [] then []
    else
      var head := events[0];
      (if head.alias == Some(alias) && !head.name.OtherName? then [head] else []) + Correlated(events[1..], alias)
  }

  function FirstOf(events: seq<Event>, name: EventName, notBefore: int): (r: Option<Event>)
    ensures r.Some? ==> r.value in events && r.value.name == name && r.value.ts >= notBefore
    ensures r.None? ==> forall e :: e in events && e.name == name ==> e.ts < notBefore
  {
    if events == [] then None
    else if events[0].name == name && events[0].ts >= notBefore then Some(events[0])
    else FirstOf(events[1..], name, notBefore)
  }

  /** The earliest start of an alias, with the earliest stop that is not before it. */
  function ActivityOf(events: seq<Event>, alias: int, startedAt: int, timelineEnd: nat): Option<Activity> {
    var ordered := Sort(Correlated(events, alias), EventKey);
    if ordered == [] then None
    else
      var start := FirstOf(ordered, StartName, ordered[0].ts);
      if start.None? then None
      else
        var stop := FirstOf(ordered, StopName, start.value.ts);
        var from := Relative(start.value.ts, startedAt);
        var to := if stop.Some? then Relative(stop.value.ts, startedAt) else timelineEnd;
        Some(Activity(alias, start.value, stop, from, if to < from then from else to))
  }

  /** A start or stop event of the alias, none of that name coming before it from `notBefore` on. */
  ghost predicate IsFirst(e: Event, name: EventName, alias: int, events: seq<Event>, notBefore: int) {
    && e in events && e.name == name && e.alias == Some(alias) && e.ts >= notBefore
    && forall other :: other in events && other.name == name && other.alias == Some(alias) && other.ts >= notBefore ==>
         e.ts < other.ts || (e.ts == other.ts && e.id <= other.id)
  }

  lemma {:induction false} FirstOfIsFirst(ordered: seq<Event>, name: EventName, notBefore: int)
    requires SortedBy(ordered, EventKey)
    ensures var r := FirstOf(ordered, name, notBefore);
            r.Some? ==> forall other :: other in ordered && other.name == name && other.ts >= notBefore ==>
              r.value.ts < other.ts || (r.value.ts == other.ts && r.value.id <= other.id)
  {
    if ordered != [] {
      FirstOfIsFirst(ordered[1..], name, notBefore);
      forall other | other in ordered
        ensures ordered[0].ts < other.ts || (ordered[0].ts == other.ts && ordered[0].id <= other.id)
      {
        var i :| 0 <= i < |ordered| && ordered[i] == other;
        assert i > 0 ==> AtMost(EventKey(ordered[0]), EventKey(ordered[i]));
      }
    }
  }

  /** The activity of an alias: from its first start event to its first stop event not before that, or to the end. */
  lemma ActivityIs(events: seq<Event>, alias: int, startedAt: int, timelineEnd: nat)
    ensures var found := ActivityOf(events, alias, startedAt, timelineEnd);
            && (found.None? <==> !exists e :: e in events && e.alias == Some(alias) && e.name == StartName)
            && (found.Some? ==>
                  var a := found.value;
                  && a.alias == alias && (exists since :: IsFirst(a.startEvent, StartName, alias, events, since))
                  && (forall e :: e in events && e.name == StartName && e.alias == Some(alias) ==>
                        a.startEvent.ts < e.ts || (a.startEvent.ts == e.ts && a.startEvent.id <= e.id))
                  && IsSinceStart(a.start, a.startEvent.ts, startedAt)
                  && (a.stopEvent.Some? ==>
                        && IsFirst(a.stopEvent.value, StopName, alias, events, a.startEvent.ts)
                        && IsLater(a.end, a.start, a.stopEvent.value.ts - startedAt))
                  && (a.stopEvent.None? ==>
                        && IsLater(a.end, a.start, timelineEnd)
                        && forall e :: e in events && e.name == StopName && e.alias == Some(alias) ==>
                             e.ts < a.startEvent.ts))
  {
    var correlated := Correlated(events, alias);
    var ordered := Sort(correlated, EventKey);
    SortSorts(correlated, EventKey);
    SameElements(correlated, ordered);
    if ordered != [] {
      forall e | e in ordered ensures e.ts >= ordered[0].ts {
        var i :| 0 <= i < |ordered| && ordered[i] == e;
        assert i > 0 ==> AtMost(EventKey(ordered[0]), EventKey(ordered[i]));
      }
      FirstOfIsFirst(ordered, StartName, ordered[0].ts);
      var start := FirstOf(ordered, StartName, ordered[0].ts);
      if start.Some? {
        FirstOfIsFirst(ordered, StopName, start.value.ts);
        assert IsFirst(start.value, StartName, alias, events, ordered[0].ts);
      }
    }
  }

  ghost predicate DistinctAliases(activities: seq<Activity>) {
    forall i, j :: 0 <= i < j < |activities| ==> activities[i].alias != activities[j].alias
  }

  /** One activity for each alias that has a start event, by start time. */
  ghost predicate AreActivitiesOf(activities: seq<Activity>, events: seq<Event>, startedAt: int, timelineEnd: nat) {
    && DistinctAliases(activities)
    && (forall a :: a in activities ==> ActivityOf(events, a.alias, startedAt, timelineEnd) == Some(a))
    && (forall alias :: ActivityOf(events, alias, startedAt, timelineEnd).Some? ==>
          exists a :: a in activities && a.alias == alias)
  }

  /** One activity for each of the given aliases that has a start event. */
  ghost predicate Collected(activities: seq<Activity>, aliases: set<int>, events: seq<Event>,
                            startedAt: int, timelineEnd: nat)
  {
    && DistinctAliases(activities)
    && (forall a :: a in activities ==>
          a.alias in aliases && ActivityOf(events, a.alias, startedAt, timelineEnd) == Some(a))
    && (forall alias :: alias in aliases && ActivityOf(events, alias, startedAt, timelineEnd).Some? ==>
          exists a :: a in activities && a.alias == alias)
  }

  lemma CollectedNext(activities: seq<Activity>, aliases: set<int>, events: seq<Event>, startedAt: int, timelineEnd: nat,
                      alias: int)
    requires Collected(activities, aliases, events, startedAt, timelineEnd) && alias !in aliases
    ensures var found := ActivityOf(events, alias, startedAt, timelineEnd);
            Collected(activities + if found.Some? then [found.value] else [], aliases + {alias}, events,
                      startedAt, timelineEnd)
  {
    var found := ActivityOf(events, alias, startedAt, timelineEnd);
    AliasIs(events, alias, startedAt, timelineEnd);
    if found.Some? {
      AliasesStayDistinct(activities, aliases, found.value);
      CoversOneMore(activities, found.value);
    } else {
      assert activities + [] == activities;
    }
  }

  lemma AliasIs(events: seq<Event>, alias: int, startedAt: int, timelineEnd: nat)
    ensures var found := ActivityOf(events, alias, startedAt, timelineEnd); found.Some? ==> found.value.alias == alias
  {
  }

  lemma AliasesStayDistinct(activities: seq<Activity>, aliases: set<int>, next: Activity)
    requires DistinctAliases(activities) && next.alias !in aliases
    requires forall a :: a in activities ==> a.alias in aliases
    ensures DistinctAliases(activities + [next])
  {
    assert forall i :: 0 <= i < |activities| ==> activities[i] in activities;
  }

  lemma CoversOneMore(activities: seq<Activity>, next: Activity)
    ensures forall a :: a in activities + [next] <==> a in activities || a == next
  {
  }

  method CollectActivities(events: seq<Event>, startedAt: int, timelineEnd: nat) returns (activities: seq<Activity>)
    ensures AreActivitiesOf(activities, events, startedAt, timelineEnd)
  {
    var aliases: set<int> := {};
    activities := [];
    for i := 0 to |events|
      invariant forall e :: e in events[..i] && e.alias.Some? && !e.name.OtherName? ==> e.alias.value in aliases
      invariant Collected(activities, aliases, events, startedAt, timelineEnd)
    {
      var event := events[i];
      if event.alias.Some? && !event.name.OtherName? && event.alias.value !in aliases {
        var alias := event.alias.value;
        var found := ActivityOf(events, alias, startedAt, timelineEnd);
        CollectedNext(activities, aliases, events, startedAt, timelineEnd, alias);
        if found.Some? {
          activities := activities + [found.value];
        }
        aliases := aliases + {alias};
      }
    }
    forall alias | ActivityOf(events, alias, startedAt, timelineEnd).Some?
      ensures alias in aliases
    {
      var ordered := Sort(Correlated(events, alias), EventKey);
      assert ordered[0] in multiset(ordered);
      assert ordered[0] in Correlated(events, alias);
      assert events[..|events|] == events;
    }
  }

  method CorrelatedActivities(events: seq<Event>, startedAt: int, timelineEnd: nat) returns (activities: seq<Activity>)
    ensures AreActivitiesOf(activities, events, startedAt, timelineEnd)
    ensures SortedBy(activities, ActivityKey)
    ensures forall i, j :: 0 <= i < j < |activities| ==>
      && activities[i].start <= activities[j].start
      && (activities[i].start == activities[j].start ==> activities[i].alias <= activities[j].alias)
  {
    activities := CollectActivities(events, startedAt, timelineEnd);
    ghost var unsorted := activities;
    activities := Sort(activities, ActivityKey);
    SortSorts(unsorted, ActivityKey);
    ActivitiesPermuted(unsorted, activities, events, startedAt, timelineEnd);
    assert forall i, j :: 0 <= i < j < |activities| ==> AtMost(ActivityKey(activities[i]), ActivityKey(activities[j]));
  }

  lemma ActivitiesPermuted(activities: seq<Activity>, permuted: seq<Activity>, events: seq<Event>,
                           startedAt: int, timelineEnd: nat)
    requires AreActivitiesOf(activities, events, startedAt, timelineEnd)
    requires multiset(activities) == multiset(permuted)
    ensures AreActivitiesOf(permuted, events, startedAt, timelineEnd)
  {
    assert Distinct(activities);
    DistinctPermutation(activities, permuted);
    SameElements(activities, permuted);
  }

  lemma SameElements<T>(items: seq<T>, permuted: seq<T>)
    requires multiset(items) == multiset(permuted)
    ensures forall x :: x in permuted <==> x in items
  {
    forall x ensures x in permuted <==> x in items {
      assert x in multiset(permuted) <==> x in multiset(items);
    }
  }

  // ---------------------------------------------------------------- which playback answers which response

  datatype StartWait = StartWait(response: Response, playback: Option<Activity>, start: nat, end: nat)

  /** A response may be answered until the next one starts, the last one until the timeline ends. */
  function AssociationEnd(responses: seq<Response>, i: nat, timelineEnd: nat): nat
    requires i < |responses|
  {
    if i + 1 < |responses| then responses[i + 1].start else timelineEnd
  }

  predicate Fits(playback: Activity, response: Response, associationEnd: nat, claimed: set<int>) {
    playback.alias !in claimed && response.start <= playback.start <= associationEnd
  }

  /** The position of the first playback that fits, or the number of playbacks. */
  function FirstFit(playbacks: seq<Activity>, response: Response, associationEnd: nat, claimed: set<int>): (k: nat)
    ensures k <= |playbacks|
    ensures k < |playbacks| ==> Fits(playbacks[k], response, associationEnd, claimed)
    ensures forall j :: 0 <= j < k ==> !Fits(playbacks[j], response, associationEnd, claimed)
  {
    if playbacks == [] || Fits(playbacks[0], response, associationEnd, claimed) then 0
    else 1 + FirstFit(playbacks[1..], response, associationEnd, claimed)
  }

  /** `chosen[i]` is the position of the playback assigned to response `i`, or the number of playbacks. */
  ghost predicate IsAssignment(chosen: seq<nat>, responses: seq<Response>, playbacks: seq<Activity>, timelineEnd: nat) {
    && |chosen| <= |responses|
    && forall i :: 0 <= i < |chosen| ==>
         chosen[i] == FirstFit(playbacks, responses[i], AssociationEnd(responses, i, timelineEnd),
                               Claimed(chosen[..i], playbacks))
  }

  function Claimed(chosen: seq<nat>, playbacks: seq<Activity>): set<int> {
    set i | 0 <= i < |chosen| && chosen[i] < |playbacks| :: playbacks[chosen[i]].alias
  }

  ghost predicate IsPlaybackList(playbacks: seq<Activity>) {
    DistinctAliases(playbacks) && SortedBy(playbacks, ActivityKey)
  }

  /**
    The assignment is an injective, order-preserving partial matching: each answered response has a
    playback that starts within its association window, later responses have later playbacks, and a
    response goes unanswered only if every playback in its window answers an earlier response.
   */
  ghost predicate IsOrderedMatching(chosen: seq<nat>, responses: seq<Response>, playbacks: seq<Activity>, timelineEnd: nat)
    requires |chosen| <= |responses|
  {
    && (forall i :: 0 <= i < |chosen| && chosen[i] < |playbacks| ==>
          InWindow(responses, i, timelineEnd, playbacks[chosen[i]].start))
    && (forall i, j :: 0 <= i < j < |chosen| && chosen[i] < |playbacks| && chosen[j] < |playbacks| ==>
          chosen[i] < chosen[j])
    && (forall i, k :: 0 <= i < |chosen| && 0 <= k < chosen[i] && k < |playbacks| ==>
          InWindow(responses, i, timelineEnd, playbacks[k].start) ==> k in chosen[..i])
  }

  /** From the start of a response to the start of the next one, or to the end of the timeline if it is the last. */
  ghost predicate InWindow(responses: seq<Response>, i: int, timelineEnd: nat, at: int)
    requires 0 <= i < |responses|
  {
    responses[i].start <= at && (if i == |responses| - 1 then at <= timelineEnd else at <= responses[i + 1].start)
  }

  lemma AssignmentIsOrderedMatching(chosen: seq<nat>, responses: seq<Response>, playbacks: seq<Activity>, timelineEnd: nat)
    requires WellOrdered(responses) && IsPlaybackList(playbacks)
    requires IsAssignment(chosen, responses, playbacks, timelineEnd)
    ensures IsOrderedMatching(chosen, responses, playbacks, timelineEnd)
  {
    forall i, j | 0 <= i < j < |chosen| && chosen[i] < |playbacks| && chosen[j] < |playbacks|
      ensures chosen[i] < chosen[j]
    {
      LaterIsFurther(chosen, responses, playbacks, timelineEnd, i, j);
    }
    forall i, k | 0 <= i < |chosen| && 0 <= k < chosen[i] && k < |playbacks|
        && InWindow(responses, i, timelineEnd, playbacks[k].start)
      ensures k in chosen[..i]
    {
      EarlierAreTaken(chosen, responses, playbacks, timelineEnd, i, k);
    }
  }

  /** Whatever comes before the one chosen in the window has been taken. */
  lemma EarlierAreTaken(chosen: seq<nat>, responses: seq<Response>, playbacks: seq<Activity>, timelineEnd: nat,
                        i: nat, k: nat)
    requires IsPlaybackList(playbacks) && IsAssignment(chosen, responses, playbacks, timelineEnd)
    requires i < |chosen| && k < chosen[i] && k < |playbacks|
    requires InWindow(responses, i, timelineEnd, playbacks[k].start)
    ensures k in chosen[..i]
  {
    assert playbacks[k].alias in Claimed(chosen[..i], playbacks);
    var m :| 0 <= m < i && chosen[..i][m] < |playbacks| && playbacks[chosen[..i][m]].alias == playbacks[k].alias;
    assert chosen[..i][m] == k;
  }

  lemma LaterIsFurther(chosen: seq<nat>, responses: seq<Response>, playbacks: seq<Activity>, timelineEnd: nat, i: nat, j: nat)
    requires WellOrdered(responses) && IsPlaybackList(playbacks)
    requires IsAssignment(chosen, responses, playbacks, timelineEnd)
    requires i < j < |chosen| && chosen[i] < |playbacks| && chosen[j] < |playbacks|
    ensures chosen[i] < chosen[j]
  {
    var p, q := playbacks[chosen[i]], playbacks[chosen[j]];
    ClaimedStays(chosen, playbacks, i, j);
    ClaimedHas(chosen, playbacks, i, j);
    assert q.alias !in Claimed(chosen[..i], playbacks) && chosen[i] != chosen[j];
    assert p.start <= AssociationEnd(responses, i, timelineEnd) <= responses[j].start <= q.start;
    assert chosen[j] < chosen[i] ==> AtMost(ActivityKey(q), ActivityKey(p));
  }

  lemma ClaimedStays(chosen: seq<nat>, playbacks: seq<Activity>, i: nat, j: nat)
    requires i <= j <= |chosen|
    ensures Claimed(chosen[..i], playbacks) <= Claimed(chosen[..j], playbacks)
  {
    forall alias | alias in Claimed(chosen[..i], playbacks)
      ensures alias in Claimed(chosen[..j], playbacks)
    {
      var m :| 0 <= m < i && chosen[..i][m] < |playbacks| && playbacks[chosen[..i][m]].alias == alias;
      assert chosen[..j][m] == chosen[..i][m];
    }
  }

  lemma ClaimedHas(chosen: seq<nat>, playbacks: seq<Activity>, i: nat, j: nat)
    requires i < j <= |chosen| && chosen[i] < |playbacks|
    ensures playbacks[chosen[i]].alias in Claimed(chosen[..j], playbacks)
  {
    assert chosen[..j][i] == chosen[i];
  }

  function Min(a: nat, b: nat): nat { if b < a then b else a }
  function Max(a: nat, b: nat): nat { if a < b then b else a }

  /**
    A response waits from its start to that of the playback it was given; an unanswered one waits until it or
    its window ends, whichever is first, but never to before its start.
   */
  ghost predicate IsWait(wait: StartWait, response: Response, choice: nat, playbacks: seq<Activity>, associationEnd: nat) {
    && wait.response == response
    && wait.playback == (if choice < |playbacks| then Some(playbacks[choice]) else None)
    && response.start == wait.start <= wait.end
    && (choice < |playbacks| ==> wait.end == playbacks[choice].start)
    && (choice >= |playbacks| ==>
          && (wait.end >= response.end || wait.end >= associationEnd)
          && (wait.end == response.start || (wait.end <= response.end && wait.end <= associationEnd)))
  }

  method AssistantStartWaits(metrics: seq<Metric>, events: seq<Event>, startedAt: int, timelineEnd: nat)
      returns (waits: seq<StartWait>, playbacks: seq<Activity>, chosen: seq<nat>)
    ensures AreActivitiesOf(playbacks, events, startedAt, timelineEnd) && SortedBy(playbacks, ActivityKey)
    ensures var responses := ResponsesOf(metrics, startedAt, timelineEnd);
            && WellOrdered(responses)
            && |waits| == |chosen| == |responses|
            && IsAssignment(chosen, responses, playbacks, timelineEnd)
            && IsOrderedMatching(chosen, responses, playbacks, timelineEnd)
            && forall i :: 0 <= i < |waits| ==>
                 IsWait(waits[i], responses[i], chosen[i], playbacks, AssociationEnd(responses, i, timelineEnd))
  {
    var responses := ProviderResponses(metrics, startedAt, timelineEnd);
    SortSorts(Observed(metrics, |metrics|), ObservationKey);
    var observations := Sort(Observed(metrics, |metrics|), ObservationKey);
    ResponsesOrdered(observations, |observations|, startedAt, timelineEnd);
    var activities := CorrelatedActivities(events, startedAt, timelineEnd);
    playbacks := activities;
    waits, chosen := AssignPlaybacks(responses, activities, timelineEnd);
    AssignmentIsOrderedMatching(chosen, responses, playbacks, timelineEnd);
  }

  /** The loop over the responses: each takes the first playback in its window that is not taken yet. */
  method AssignPlaybacks(responses: seq<Response>, activities: seq<Activity>, timelineEnd: nat)
      returns (waits: seq<StartWait>, chosen: seq<nat>)
    ensures |waits| == |chosen| == |responses|
    ensures IsAssignment(chosen, responses, activities, timelineEnd)
    ensures forall i :: 0 <= i < |waits| ==>
      IsWait(waits[i], responses[i], chosen[i], activities, AssociationEnd(responses, i, timelineEnd))
  {
    var claimed: set<int> := {};
    waits, chosen := [], [];
    for i := 0 to |responses|
      invariant |waits| == |chosen| == i
      invariant IsAssignment(chosen, responses, activities, timelineEnd)
      invariant claimed == Claimed(chosen, activities)
      invariant forall j :: 0 <= j < i ==>
        IsWait(waits[j], responses[j], chosen[j], activities, AssociationEnd(responses, j, timelineEnd))
    {
      var response := responses[i];
      var associationEnd := AssociationEnd(responses, i, timelineEnd);
      var k := FirstFit(activities, response, associationEnd, claimed);
      var playback := if k < |activities| then Some(activities[k]) else None;
      if playback.Some? {
        claimed := claimed + {playback.value.alias};
      }
      var end := if playback.Some? then playback.value.start
                 else Min(response.end, associationEnd);
      waits := waits + [StartWait(response, playback, response.start, Max(response.start, end))];
      ClaimedNext(chosen, k, activities);
      AssignmentNext(chosen, k, responses, activities, timelineEnd);
      chosen := chosen + [k];
    }
  }

  lemma ClaimedNext(chosen: seq<nat>, k: nat, playbacks: seq<Activity>)
    ensures Claimed(chosen + [k], playbacks)
         == Claimed(chosen, playbacks) + if k < |playbacks| then {playbacks[k].alias} else {}
  {
    forall alias | alias in Claimed(chosen, playbacks)
      ensures alias in Claimed(chosen + [k], playbacks)
    {
      var i :| 0 <= i < |chosen| && chosen[i] < |playbacks| && playbacks[chosen[i]].alias == alias;
      assert (chosen + [k])[i] == chosen[i];
    }
    assert (chosen + [k])[|chosen|] == k;
  }

  lemma AssignmentNext(chosen: seq<nat>, k: nat, responses: seq<Response>, playbacks: seq<Activity>, timelineEnd: nat)
    requires IsAssignment(chosen, responses, playbacks, timelineEnd) && |chosen| < |responses|
    requires k == FirstFit(playbacks, responses[|chosen|], AssociationEnd(responses, |chosen|, timelineEnd),
                           Claimed(chosen, playbacks))
    ensures IsAssignment(chosen + [k], responses, playbacks, timelineEnd)
  {
    forall i | 0 <= i < |chosen| + 1
      ensures (chosen + [k])[i] == FirstFit(playbacks, responses[i], AssociationEnd(responses, i, timelineEnd),
                                            Claimed((chosen + [k])[..i], playbacks))
    {
      assert (chosen + [k])[..i] == chosen[..i];
      if i == |chosen| { assert chosen[..i] == chosen; }
    }
  }
}

/** How much work a job can cause, and how its leases lie in time. */
module QueueBounds {
  import opened Common
  import opened JobQueue
  import opened QueueRuns

  // ---------------------------------------------------------------- attempts and state transitions

  ghost function Claims(w: World, events: seq<Event>, max: MaxAttempts, id: JobId): nat
    decreases |events|
  {
    if events == [] then 0
    else
      var (w', response) := Step(w, events[0], max);
      (if response.Granted? && response.lease.jobId == id then 1 else 0) + Claims(w', events[1..], max, id)
  }

  ghost function Attempts(w: World, id: JobId): nat {
    if id in w.db.jobs then w.db.jobs[id].attempts else 0
  }

  lemma StepCountsAttempts(w: World, e: Event, max: MaxAttempts, id: JobId)
    requires Inv(w, max) && Fresh(w, e)
    ensures var (w', response) := Step(w, e, max);
            Attempts(w', id) == Attempts(w, id) + if response.Granted? && response.lease.jobId == id then 1 else 0
  {
    if Step(w, e, max).1.Granted? { GrantIs(w, e, max); }
    if id in w.db.jobs {
      StepMovesRow(w, e, max, id);
      var job, job' := w.db.jobs[id], Step(w, e, max).0.db.jobs[id];
      if e.Claim? && job'.token == Some(e.token) { TakenRowIsGranted(w, e, max, id); }
    } else if id in Step(w, e, max).0.db.jobs {
      NewRow(w, e, max, id);
    }
  }

  /** `attempts` counts the successful claims of a job, and the limit holds in every run. */
  lemma {:induction false} AttemptsCountClaims(w: World, events: seq<Event>, max: MaxAttempts, id: JobId)
    requires Inv(w, max) && Possible(w, events, max)
    ensures Attempts(After(w, events, max), id) == Attempts(w, id) + Claims(w, events, max, id) <= max
    decreases |events|
  {
    if events != [] {
      StepInv(w, events[0], max);
      StepCountsAttempts(w, events[0], max, id);
      AttemptsCountClaims(Step(w, events[0], max).0, events[1..], max, id);
    } else if id in w.db.jobs {
      assert RowOk(w, max, id, w.db.jobs[id]);
    }
  }

  /** The state transitions that a row can still make; a row not yet created can make all of them. */
  ghost function Budget(w: World, max: MaxAttempts, id: JobId): int {
    if id !in w.db.jobs then 2 * max
    else
      var job := w.db.jobs[id];
      if Terminal(job) then 0
      else 2 * (max - job.attempts) + if job.state == Leased then 1 else 0
  }

  /** A transition is a claim, a retry or an end; heartbeats and failed attempts are none. */
  ghost predicate Transition(w: World, e: Event, max: MaxAttempts, id: JobId) {
    && id in w.db.jobs && id in Step(w, e, max).0.db.jobs
    && var job, job' := w.db.jobs[id], Step(w, e, max).0.db.jobs[id];
       job'.state != job.state || job'.attempts != job.attempts
  }

  ghost function Transitions(w: World, events: seq<Event>, max: MaxAttempts, id: JobId): nat
    decreases |events|
  {
    if events == [] then 0
    else
      (if Transition(w, events[0], max, id) then 1 else 0)
      + Transitions(Step(w, events[0], max).0, events[1..], max, id)
  }

  /** (attempts left, queued < leased) descends lexicographically, and terminal rows have nothing left. */
  lemma TransitionDescends(w: World, e: Event, max: MaxAttempts, id: JobId)
    requires Inv(w, max) && Fresh(w, e)
    ensures 0 <= Budget(Step(w, e, max).0, max, id) <= Budget(w, max, id)
    ensures Transition(w, e, max, id) ==> Budget(Step(w, e, max).0, max, id) < Budget(w, max, id)
    ensures Transition(w, e, max, id) ==>
      var job, job' := w.db.jobs[id], Step(w, e, max).0.db.jobs[id];
      && !Terminal(job)
      && (job'.attempts > job.attempts || Terminal(job') || (job.state == Leased && job'.state == Queued))
  {
    var w' := Step(w, e, max).0;
    StepInv(w, e, max);
    if id in w.db.jobs {
      assert RowOk(w, max, id, w.db.jobs[id]);
      StepMovesRow(w, e, max, id);
      assert RowOk(w', max, id, w'.db.jobs[id]);
    } else if id in w'.db.jobs {
      NewRow(w, e, max, id);
    }
  }

  /** So one job makes at most twice as many transitions as it has attempts, in every run. */
  lemma {:induction false} TransitionsBounded(w: World, events: seq<Event>, max: MaxAttempts, id: JobId)
    requires Inv(w, max) && Possible(w, events, max)
    ensures Transitions(w, events, max, id) <= Budget(w, max, id) <= 2 * max + 1
    decreases |events|
  {
    if id in w.db.jobs { assert RowOk(w, max, id, w.db.jobs[id]); }
    if events != [] {
      StepInv(w, events[0], max);
      TransitionDescends(w, events[0], max, id);
      TransitionsBounded(Step(w, events[0], max).0, events[1..], max, id);
    }
  }

  /** The transitions of all the given jobs. */
  ghost function AllTransitions(w: World, events: seq<Event>, max: MaxAttempts, ids: set<JobId>): nat
    decreases |ids|
  {
    if ids == {} then 0
    else
      var id :| id in ids;
      Transitions(w, events, max, id) + AllTransitions(w, events, max, ids - {id})
  }

  lemma {:induction false} AllBounded(events: seq<Event>, max: MaxAttempts, ids: set<JobId>)
    requires Possible(EMPTY, events, max)
    ensures AllTransitions(EMPTY, events, max, ids) <= 2 * max * |ids|
    decreases |ids|
  {
    if ids != {} {
      EmptyInv(max);
      var id :| id in ids && AllTransitions(EMPTY, events, max, ids)
                          == Transitions(EMPTY, events, max, id) + AllTransitions(EMPTY, events, max, ids - {id});
      TransitionsBounded(EMPTY, events, max, id);
      AllBounded(events, max, ids - {id});
      assert 2 * max * |ids| == 2 * max * (|ids| - 1) + 2 * max;
    }
  }

  /** A row that is not there in the end never was, and so made no transition. */
  lemma {:induction false} AbsentMakesNone(w: World, events: seq<Event>, max: MaxAttempts, id: JobId)
    requires Inv(w, max) && Possible(w, events, max) && id !in After(w, events, max).db.jobs
    ensures id !in w.db.jobs && Transitions(w, events, max, id) == 0
    decreases |events|
  {
    if events != [] {
      StepInv(w, events[0], max);
      AbsentMakesNone(Step(w, events[0], max).0, events[1..], max, id);
      if id in w.db.jobs { StepMovesRow(w, events[0], max, id); }
    }
  }

  /**
    From the empty table on, all jobs together make at most twice as many transitions as there are jobs times
    attempts, so a queue to which nothing is added any more comes to rest.
   */
  lemma AllTransitionsBounded(events: seq<Event>, max: MaxAttempts)
    requires Possible(EMPTY, events, max)
    ensures var jobs := After(EMPTY, events, max).db.jobs.Keys;
            && AllTransitions(EMPTY, events, max, jobs) <= 2 * max * |jobs|
            && forall id :: id !in jobs ==> Transitions(EMPTY, events, max, id) == 0
  {
    EmptyInv(max);
    AllBounded(events, max, After(EMPTY, events, max).db.jobs.Keys);
    forall id | id !in After(EMPTY, events, max).db.jobs.Keys ensures Transitions(EMPTY, events, max, id) == 0 {
      AbsentMakesNone(EMPTY, events, max, id);
    }
  }

  // ---------------------------------------------------------------- leases in time

  ghost predicate Monotone(clock: int, events: seq<Event>)
    decreases |events|
  {
    events != [] ==> clock <= events[0].now && Monotone(events[0].now, events[1..])
  }

  /**
    The intervals for which a job was held: from each grant to the last announced expiry, or to the moment
    at which the holder itself ended the lease.
   */
  ghost function HoldsAfter(w: World, e: Event, max: MaxAttempts, id: JobId, holds: seq<(int, int)>): seq<(int, int)> {
    var response := Step(w, e, max).1;
    if response.Granted? && response.lease.jobId == id then holds + [(e.now, response.lease.expiresAt)]
    else if holds != [] && HolderExtends(w, e, id) then EndAt(holds, e.now + e.seconds * SECOND)
    else if holds != [] && HolderEnds(w, e, id) then EndAt(holds, e.now)
    else holds
  }

  function EndAt(holds: seq<(int, int)>, end: int): seq<(int, int)>
    requires holds != []
  {
    holds[|holds| - 1 := (holds[|holds| - 1].0, end)]
  }

  ghost function Holds(w: World, events: seq<Event>, max: MaxAttempts, id: JobId, holds: seq<(int, int)>): seq<(int, int)>
    decreases |events|
  {
    if events == [] then holds
    else Holds(Step(w, events[0], max).0, events[1..], max, id, HoldsAfter(w, events[0], max, id, holds))
  }

  ghost predicate Disjoint(holds: seq<(int, int)>) {
    && (forall i :: 0 <= i < |holds| ==> holds[i].0 <= holds[i].1)
    && (forall i, j :: 0 <= i < j < |holds| ==> holds[i].1 <= holds[j].0)
  }

  /** The last interval is open exactly while the row is leased, and ends at the row's expiry. */
  ghost predicate HoldsFit(w: World, clock: int, id: JobId, holds: seq<(int, int)>) {
    && Disjoint(holds)
    && (holds != [] ==> holds[|holds| - 1].0 <= clock)
    && (if id in w.db.jobs && w.db.jobs[id].state == Leased then
          holds != [] && w.db.jobs[id].expiresAt == Some(holds[|holds| - 1].1)
        else
          holds != [] ==> holds[|holds| - 1].1 <= clock)
  }

  lemma DisjointAppend(holds: seq<(int, int)>, start: int, end: int)
    requires Disjoint(holds) && start <= end
    requires holds != [] ==> holds[|holds| - 1].1 <= start
    ensures Disjoint(holds + [(start, end)])
  {
    forall i | 0 <= i < |holds| ensures holds[i].1 <= start {
      if i < |holds| - 1 { assert holds[i].1 <= holds[|holds| - 1].0; }
    }
  }

  lemma DisjointEnd(holds: seq<(int, int)>, end: int)
    requires holds != [] && Disjoint(holds) && holds[|holds| - 1].0 <= end
    ensures Disjoint(EndAt(holds, end))
  {}

  lemma StepKeepsHoldsFit(w: World, e: Event, max: MaxAttempts, clock: int, id: JobId, holds: seq<(int, int)>)
    requires Inv(w, max) && Fresh(w, e) && clock <= e.now && HoldsFit(w, clock, id, holds)
    ensures HoldsFit(Step(w, e, max).0, e.now, id, HoldsAfter(w, e, max, id, holds))
  {
    var (w', response) := Step(w, e, max);
    if response.Granted? && response.lease.jobId == id {
      GrantKeepsHoldsFit(w, e, max, clock, id, holds);
    } else if id !in w.db.jobs {
      if id in w'.db.jobs { NewRow(w, e, max, id); }
    } else if HolderExtends(w, e, id) || HolderEnds(w, e, id) {
      HolderKeepsHoldsFit(w, e, max, clock, id, holds);
    } else {
      RowIdle(w, e, max, id);
    }
  }

  lemma GrantKeepsHoldsFit(w: World, e: Event, max: MaxAttempts, clock: int, id: JobId, holds: seq<(int, int)>)
    requires Inv(w, max) && Fresh(w, e) && clock <= e.now && HoldsFit(w, clock, id, holds)
    requires var response := Step(w, e, max).1; response.Granted? && response.lease.jobId == id
    ensures HoldsFit(Step(w, e, max).0, e.now, id, HoldsAfter(w, e, max, id, holds))
  {
    GrantIs(w, e, max);
    DisjointAppend(holds, e.now, Step(w, e, max).1.lease.expiresAt);
  }

  lemma HolderKeepsHoldsFit(w: World, e: Event, max: MaxAttempts, clock: int, id: JobId, holds: seq<(int, int)>)
    requires Inv(w, max) && Fresh(w, e) && clock <= e.now && HoldsFit(w, clock, id, holds)
    requires id in w.db.jobs && (HolderExtends(w, e, id) || HolderEnds(w, e, id))
    requires var response := Step(w, e, max).1; response.Granted? ==> response.lease.jobId != id
    ensures HoldsFit(Step(w, e, max).0, e.now, id, HoldsAfter(w, e, max, id, holds))
  {
    HolderActs(w, e, max, id);
    DisjointEnd(holds, if HolderExtends(w, e, id) then e.now + e.seconds * SECOND else e.now);
  }

  /** A row that its holder leaves alone and that is not claimed stays as it is, or is swept once expired. */
  lemma RowIdle(w: World, e: Event, max: MaxAttempts, id: JobId)
    requires Inv(w, max) && Fresh(w, e) && id in w.db.jobs
    requires !HolderExtends(w, e, id) && !HolderEnds(w, e, id)
    requires var response := Step(w, e, max).1; response.Granted? ==> response.lease.jobId != id
    ensures id in Step(w, e, max).0.db.jobs
    ensures var job, job' := w.db.jobs[id], Step(w, e, max).0.db.jobs[id];
            job' == job || (job'.state == Failed && (job.state == Leased ==> job.expiresAt.Some? && job.expiresAt.value <= e.now))
  {
    StepMovesRow(w, e, max, id);
    assert RowOk(w, max, id, w.db.jobs[id]);
    if e.Claim? && Step(w, e, max).0.db.jobs[id].token == Some(e.token) {
      TakenRowIsGranted(w, e, max, id);
    }
  }

  lemma HolderActs(w: World, e: Event, max: MaxAttempts, id: JobId)
    requires Fresh(w, e) && id in w.db.jobs
    ensures id in Step(w, e, max).0.db.jobs
    ensures HolderExtends(w, e, id) ==>
      Step(w, e, max).0.db.jobs[id] == w.db.jobs[id].(expiresAt := Some(e.now + e.seconds * SECOND))
    ensures HolderEnds(w, e, id) ==> Step(w, e, max).0.db.jobs[id].state != Leased
  {
    StepMovesRow(w, e, max, id);
  }

  /** With a clock that never goes back, successive leases of one job occupy disjoint intervals, in order. */
  lemma {:induction false} LeasesAreDisjoint(w: World, events: seq<Event>, max: MaxAttempts, clock: int, id: JobId,
                                             holds: seq<(int, int)>)
    requires Inv(w, max) && Possible(w, events, max) && Monotone(clock, events) && HoldsFit(w, clock, id, holds)
    ensures Disjoint(Holds(w, events, max, id, holds))
    decreases |events|
  {
    if events != [] {
      StepInv(w, events[0], max);
      StepKeepsHoldsFit(w, events[0], max, clock, id, holds);
      LeasesAreDisjoint(Step(w, events[0], max).0, events[1..], max, events[0].now, id,
                        HoldsAfter(w, events[0], max, id, holds));
    }
  }

  lemma LeasesAreDisjointFromTheStart(events: seq<Event>, max: MaxAttempts, clock: int, id: JobId)
    requires Possible(EMPTY, events, max) && Monotone(clock, events)
    ensures Disjoint(Holds(EMPTY, events, max, id, []))
  {
    EmptyInv(max);
    LeasesAreDisjoint(EMPTY, events, max, clock, id, []);
  }

  // ---------------------------------------------------------------- a punctual holder

  predicate BeatOf(e: Event, lease: Lease, worker: string) {
    e.Heartbeat? && e.lease == lease && e.worker == worker && ValidAlias(worker) && ValidLeaseSeconds(e.seconds)
  }

  predicate EndOf(e: Event, lease: Lease, worker: string) {
    (e.Complete? || e.Fail? || e.Commit?) && e.lease.token == lease.token && e.worker == worker
  }

  /** Copies of the lease record differ from it only in fields that fencing ignores. */
  predicate OnlyBeats(events: seq<Event>, lease: Lease, worker: string) {
    forall i :: 0 <= i < |events| ==>
      && !EndOf(events[i], lease, worker)
      && (events[i].Heartbeat? && events[i].lease.token == lease.token && events[i].worker == worker ==>
            BeatOf(events[i], lease, worker))
  }

  /** When the lease ends if every heartbeat of the holder is granted. */
  function Deadline(events: seq<Event>, lease: Lease, worker: string, deadline: int): int
    decreases |events|
  {
    if events == [] then deadline
    else
      Deadline(events[1..], lease, worker,
               if BeatOf(events[0], lease, worker) then events[0].now + events[0].seconds * SECOND else deadline)
  }

  /** Each heartbeat of the holder lands before the deadline that the previous one set. */
  predicate OnTime(events: seq<Event>, lease: Lease, worker: string, deadline: int)
    decreases |events|
  {
    events != [] ==>
      if BeatOf(events[0], lease, worker) then
        events[0].now < deadline && OnTime(events[1..], lease, worker, events[0].now + events[0].seconds * SECOND)
      else
        OnTime(events[1..], lease, worker, deadline)
  }

  predicate Holding(w: World, lease: Lease, worker: string, deadline: int) {
    && lease.jobId in w.db.jobs
    && var job := w.db.jobs[lease.jobId];
       job.state == Leased && job.owner == Some(worker) && job.token == Some(lease.token) && job.expiresAt == Some(deadline)
  }

  /** Before the deadline nobody but the holder can change the row. */
  lemma StepKeepsHolding(w: World, e: Event, max: MaxAttempts, lease: Lease, worker: string, deadline: int)
    requires Inv(w, max) && Fresh(w, e) && Holding(w, lease, worker, deadline) && e.now < deadline
    requires OnlyBeats([e], lease, worker)
    ensures BeatOf(e, lease, worker) ==>
      && Step(w, e, max).1 == Answer(true)
      && Holding(Step(w, e, max).0, lease, worker, e.now + e.seconds * SECOND)
    ensures !BeatOf(e, lease, worker) ==> Holding(Step(w, e, max).0, lease, worker, deadline)
  {
    assert [e][0] == e;
    StepMovesRow(w, e, max, lease.jobId);
  }

  /** With a monotone clock and heartbeats on time, no event comes after the deadline of its moment. */
  lemma {:induction false} BeforeDeadline(events: seq<Event>, lease: Lease, worker: string, deadline: int, clock: int)
    requires events != [] && Monotone(clock, events) && OnTime(events, lease, worker, deadline)
    requires events[|events| - 1].now < Deadline(events, lease, worker, deadline)
    ensures events[0].now < deadline
    decreases |events|
  {
    if !BeatOf(events[0], lease, worker) && |events| > 1 {
      assert events[1..][|events| - 2] == events[|events| - 1];
      BeforeDeadline(events[1..], lease, worker, deadline, events[0].now);
    }
  }

  /** All heartbeats of the holder are granted. */
  ghost predicate AllGranted(w: World, events: seq<Event>, max: MaxAttempts, lease: Lease, worker: string)
    decreases |events|
  {
    events != [] ==>
      && (BeatOf(events[0], lease, worker) ==> Step(w, events[0], max).1 == Answer(true))
      && AllGranted(Step(w, events[0], max).0, events[1..], max, lease, worker)
  }

  /**
    With a monotone clock, a holder that only sends heartbeats, each before the previous extension runs out,
    is never refused, swept or displaced, whatever the other workers do.
   */
  lemma {:induction false} PunctualHolderKeepsLease(w: World, events: seq<Event>, max: MaxAttempts, clock: int,
                                                    lease: Lease, worker: string, deadline: int)
    requires Inv(w, max) && Possible(w, events, max) && Monotone(clock, events)
    requires Holding(w, lease, worker, deadline)
    requires OnlyBeats(events, lease, worker) && OnTime(events, lease, worker, deadline)
    requires events != [] ==> events[|events| - 1].now < Deadline(events, lease, worker, deadline)
    ensures AllGranted(w, events, max, lease, worker)
    ensures Holding(After(w, events, max), lease, worker, Deadline(events, lease, worker, deadline))
    decreases |events|
  {
    if events != [] {
      var e := events[0];
      BeforeDeadline(events, lease, worker, deadline, clock);
      StepInv(w, e, max);
      assert OnlyBeats([e], lease, worker);
      StepKeepsHolding(w, e, max, lease, worker, deadline);
      assert OnlyBeats(events[1..], lease, worker) by {
        forall i | 0 <= i < |events[1..]| ensures events[1..][i] == events[i + 1] {}
      }
      if |events| > 1 { assert events[1..][|events| - 2] == events[|events| - 1]; }
      PunctualHolderKeepsLease(Step(w, e, max).0, events[1..], max, e.now, lease, worker,
        if BeatOf(e, lease, worker) then e.now + e.seconds * SECOND else deadline);
    }
  }

  /** Each heartbeat comes at most `gap` after the previous one and asks for `seconds` more. */
  predicate Paced(events: seq<Event>, lease: Lease, worker: string, last: int, gap: int, seconds: int)
    decreases |events|
  {
    events != [] ==>
      if BeatOf(events[0], lease, worker) then
        && events[0].seconds == seconds && events[0].now <= last + gap
        && Paced(events[1..], lease, worker, events[0].now, gap, seconds)
      else
        Paced(events[1..], lease, worker, last, gap, seconds)
  }

  /** A worker may be late by anything less than half its lease, as its interval is at most the other half. */
  lemma {:induction false} HalfLeaseOfSlack(events: seq<Event>, lease: Lease, worker: string, last: int,
                                            interval: int, delay: int, seconds: int)
    requires 2 * interval <= seconds * SECOND && 2 * delay < seconds * SECOND
    requires Paced(events, lease, worker, last, interval + delay, seconds)
    ensures OnTime(events, lease, worker, last + seconds * SECOND)
    decreases |events|
  {
    if events != [] {
      HalfLeaseOfSlack(events[1..], lease, worker, if BeatOf(events[0], lease, worker) then events[0].now else last,
                       interval, delay, seconds);
    }
  }
}

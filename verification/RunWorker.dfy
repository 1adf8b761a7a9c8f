/**
  One worker's `run_one`, interleaved with everything that other workers and the API do to the database,
  and the agreement between job rows and run rows over all runs of such workers.
 */
module RunWorker {
  import opened Common
  import opened JobQueue
  import opened QueueRuns

  // ---------------------------------------------------------------- what workers and the API do

  /**
    The queue events of a system whose only run writers are workers and the saving of queued runs.  Workers
    never call `complete`; they call `fail` without retry only for a missing run, and with retry only on a
    lease of theirs that is not the final attempt.
   */
  ghost predicate Allowed(w: World, e: Event) {
    match e
    case Complete(_, _, _) => false
    case Fail(lease, _, alias, retryable, _, _) =>
      if retryable then
        lease.token in w.granted && w.granted[lease.token].lease == lease && !lease.finalAttempt
      else
        alias == "run-not-found"
    case _ => true
  }

  ghost predicate AllAllowed(w: World, events: seq<Event>, max: MaxAttempts)
    decreases |events|
  {
    events != [] ==>
      && Fresh(w, events[0]) && Allowed(w, events[0])
      && AllAllowed(Step(w, events[0], max).0, events[1..], max)
  }

  /** A job's end and its run row say the same, except on the two paths that never touch the run. */
  ghost predicate Agree(w: World, id: JobId)
    requires id in w.db.jobs
  {
    var job := w.db.jobs[id];
    && (job.state == Completed ==> job.runId in w.db.runs && w.db.runs[job.runId].status == RunCompleted)
    && (job.state == Failed ==>
          || (job.runId in w.db.runs && w.db.runs[job.runId].status == RunFailed)
          || job.failureAlias in {Some("attempt-limit-exhausted"), Some("run-not-found")})
  }

  ghost predicate Agreement(w: World) {
    forall id :: id in w.db.jobs ==> Agree(w, id)
  }

  /** A retry never fails a job: a lease that is not final belongs to a row with attempts left. */
  lemma RetryQueues(w: World, e: Event, max: MaxAttempts)
    requires Inv(w, max) && Allowed(w, e) && e.Fail? && e.retryable
    requires Active(w.db.jobs, e.lease, e.worker, e.now)
    ensures w.db.jobs[e.lease.jobId].attempts < max
  {
    assert RowOk(w, max, e.lease.jobId, w.db.jobs[e.lease.jobId]);
  }

  lemma StepKeepsAgree(w: World, e: Event, max: MaxAttempts, id: JobId)
    requires Inv(w, max) && Fresh(w, e) && Allowed(w, e)
    requires id in Step(w, e, max).0.db.jobs
    requires id in w.db.jobs ==> Agree(w, id)
    ensures Agree(Step(w, e, max).0, id)
  {
    if id !in w.db.jobs {
      NewRow(w, e, max, id);
    } else {
      StepMovesRow(w, e, max, id);
      var job := w.db.jobs[id];
      if Terminal(job) {
        TerminalStays(w, e, max, id);
        if e.SaveQueued? && e.run.id == job.runId { JobOfRunIs(w.db.jobs, e.run.id, id); }
      }
      if e.Fail? && e.retryable && Active(w.db.jobs, e.lease, e.worker, e.now) { RetryQueues(w, e, max); }
    }
  }

  lemma StepKeepsAgreement(w: World, e: Event, max: MaxAttempts)
    requires Inv(w, max) && Fresh(w, e) && Allowed(w, e) && Agreement(w)
    ensures Agreement(Step(w, e, max).0)
  {
    forall id | id in Step(w, e, max).0.db.jobs ensures Agree(Step(w, e, max).0, id) {
      StepKeepsAgree(w, e, max, id);
    }
  }

  lemma {:induction false} AgreementInEveryRun(w: World, events: seq<Event>, max: MaxAttempts)
    requires Inv(w, max) && Agreement(w) && AllAllowed(w, events, max)
    ensures Inv(After(w, events, max), max) && Agreement(After(w, events, max))
    decreases |events|
  {
    if events != [] {
      StepInv(w, events[0], max);
      StepKeepsAgreement(w, events[0], max);
      AgreementInEveryRun(Step(w, events[0], max).0, events[1..], max);
    }
  }

  lemma {:induction false} GrantsStay(w: World, events: seq<Event>, max: MaxAttempts, token: Token)
    requires AllAllowed(w, events, max) && token in w.granted
    ensures token in After(w, events, max).granted && After(w, events, max).granted[token] == w.granted[token]
    decreases |events|
  {
    if events != [] {
      GrantsGrow(w, events[0], max);
      GrantsStay(Step(w, events[0], max).0, events[1..], max, token);
    }
  }

  lemma {:induction false} RunsCompose(w: World, a: seq<Event>, b: seq<Event>, max: MaxAttempts)
    requires AllAllowed(w, a, max) && AllAllowed(After(w, a, max), b, max)
    ensures AllAllowed(w, a + b, max)
    ensures After(w, a + b, max) == After(After(w, a, max), b, max)
    decreases |a|
  {
    if a == [] {
      assert a + b == b;
    } else {
      assert (a + b)[0] == a[0] && (a + b)[1..] == a[1..] + b;
      RunsCompose(Step(w, a[0], max).0, a[1..], b, max);
    }
  }

  lemma {:induction false} RunsSplit(w: World, a: seq<Event>, b: seq<Event>, max: MaxAttempts)
    requires AllAllowed(w, a + b, max)
    ensures AllAllowed(w, a, max) && AllAllowed(After(w, a, max), b, max)
    ensures After(w, a + b, max) == After(After(w, a, max), b, max)
    decreases |a|
  {
    if a == [] {
      assert a + b == b;
    } else {
      assert (a + b)[0] == a[0] && (a + b)[1..] == a[1..] + b;
      RunsSplit(Step(w, a[0], max).0, a[1..], b, max);
    }
  }

  lemma OneMore(w: World, events: seq<Event>, e: Event, max: MaxAttempts)
    requires AllAllowed(w, events, max) && Inv(w, max)
    requires Fresh(After(w, events, max), e) && Allowed(After(w, events, max), e)
    ensures AllAllowed(w, events + [e], max)
    ensures After(w, events + [e], max) == Step(After(w, events, max), e, max).0
  {
    assert [e][0] == e && [e][1..] == [];
    RunsCompose(w, events, [e], max);
  }

  // ---------------------------------------------------------------- what happened under one lease

  /** The operations that name a lease: those that end it, and those that extend it. */
  datatype Use = Ending | Beating

  predicate Uses(e: Event, token: Token) {
    (e.Heartbeat? || e.Complete? || e.Fail? || e.Commit?) && e.lease.token == token
  }

  /** An operation under the token that took effect. */
  ghost predicate Effective(w: World, e: Event, max: MaxAttempts, token: Token, use: Use) {
    && Uses(e, token)
    && (use == Beating <==> e.Heartbeat?)
    && Step(w, e, max).1 == Answer(true)
  }

  /** How many operations of the kind took effect under the token, whoever sent them. */
  ghost function Tally(w: World, events: seq<Event>, max: MaxAttempts, token: Token, use: Use): nat
    decreases |events|
  {
    if events == [] then 0
    else
      (if Effective(w, events[0], max, token, use) then 1 else 0)
      + Tally(Step(w, events[0], max).0, events[1..], max, token, use)
  }

  lemma {:induction false} TallyAppend(w: World, a: seq<Event>, b: seq<Event>, max: MaxAttempts, token: Token, use: Use)
    ensures Tally(w, a + b, max, token, use)
         == Tally(w, a, max, token, use) + Tally(After(w, a, max), b, max, token, use)
    decreases |a|
  {
    if a == [] {
      assert a + b == b;
    } else {
      assert (a + b)[0] == a[0] && (a + b)[1..] == a[1..] + b;
      TallyAppend(Step(w, a[0], max).0, a[1..], b, max, token, use);
    }
  }

  lemma TallyOneMore(w: World, events: seq<Event>, e: Event, max: MaxAttempts, token: Token, use: Use)
    ensures Tally(w, events + [e], max, token, use)
         == Tally(w, events, max, token, use) + if Effective(After(w, events, max), e, max, token, use) then 1 else 0
  {
    TallyAppend(w, events, [e], max, token, use);
    assert [e][0] == e && [e][1..] == [];
  }

  ghost predicate Untouched(events: seq<Event>, token: Token) {
    forall i :: 0 <= i < |events| ==> !Uses(events[i], token)
  }

  lemma {:induction false} TallyUntouched(w: World, events: seq<Event>, max: MaxAttempts, token: Token, use: Use)
    requires Untouched(events, token)
    ensures Tally(w, events, max, token, use) == 0
    decreases |events|
  {
    if events != [] {
      assert !Uses(events[0], token);
      TallyUntouched(Step(w, events[0], max).0, events[1..], max, token, use);
    }
  }

  // ---------------------------------------------------------------- one worker

  datatype Outcome = Idle | Done | RetryScheduled | Abandoned | RunMissing | LeaseLost

  datatype WorkerResult = WorkerResult(outcome: Outcome, lease: Option<Lease>)

  /** What the executor did with the run that it was given: it may change it, and it may raise. */
  datatype Execution = Execution(run: Run, raised: bool)

  predicate Succeeded(execution: Execution) {
    !execution.raised && execution.run.status == RunCompleted && execution.run.endedAt.Some?
  }

  /** The alias that an execution without a usable result is recorded with. */
  function FailureAlias(execution: Execution): string {
    if execution.raised then "engine-harness-error"
    else if execution.run.status == RunFailed && execution.run.failureAlias.Some?
            && ValidAlias(execution.run.failureAlias.value) then execution.run.failureAlias.value
    else "run-result-invalid"
  }

  /** A tick of the heartbeat thread: a transaction at some time, or a queue that was unavailable. */
  datatype Tick = Beat(now: int) | Unavailable

  class RunJobWorker {
    const store: Store
    const workerId: string
    const leaseSeconds: int
    const retryDelay: int

    /** The world before this worker's `run_one`, and everything that was done to it since, by anyone. */
    ghost var start: World
    ghost var trace: seq<Event>

    ghost function Current(): World
      reads this, store
    {
      After(start, trace, store.maxAttempts)
    }

    /** How many operations other than heartbeats took effect under the token, and how many heartbeats did. */
    ghost function Endings(token: Token): nat
      reads this
    {
      Tally(start, trace, store.maxAttempts, token, Ending)
    }

    ghost function Beats(token: Token): nat
      reads this
    {
      Tally(start, trace, store.maxAttempts, token, Beating)
    }

    ghost predicate Valid()
      reads this, store
    {
      && ValidAlias(workerId) && ValidLeaseSeconds(leaseSeconds) && 0 <= retryDelay <= 3600
      && Inv(start, store.maxAttempts)
      && AllAllowed(start, trace, store.maxAttempts)
      && Current().db == store.Abstract()
      && Inv(Current(), store.maxAttempts)
    }

    constructor (store: Store, workerId: string, leaseSeconds: int, retryDelay: int, ghost start: World)
      requires ValidAlias(workerId) && ValidLeaseSeconds(leaseSeconds) && 0 <= retryDelay <= 3600
      requires Inv(start, store.maxAttempts) && start.db == store.Abstract()
      ensures Valid() && this.store == store && this.start == start && trace == []
    {
      this.store, this.workerId, this.leaseSeconds, this.retryDelay := store, workerId, leaseSeconds, retryDelay;
      this.start, trace := start, [];
    }

    /** The events happen after those of `before`, in the order of the trace. */
    ghost predicate Extends(before: seq<Event>)
      reads this
    {
      before <= trace
    }

    /**
      Between two transactions of this worker, the others may do anything that they are allowed to; only the
      token of this worker's lease is not known to them.  Callers see only this contract; that this body makes
      them do nothing is of no consequence.
     */
    method Interfere(ghost token: Token)
      requires Valid()
      modifies this`trace, store
      ensures Valid() && Extends(old(trace)) && Untouched(trace[|old(trace)|..], token)
    {
    }

    /** The transaction just made joins the trace. */
    ghost method Record(e: Event, token: Token)
      requires ValidAlias(workerId) && ValidLeaseSeconds(leaseSeconds) && 0 <= retryDelay <= 3600
      requires Inv(start, store.maxAttempts) && AllAllowed(start, trace, store.maxAttempts)
      requires Inv(Current(), store.maxAttempts) && Fresh(Current(), e) && Allowed(Current(), e)
      requires Step(Current(), e, store.maxAttempts).0.db == store.Abstract()
      modifies this`trace
      ensures Valid() && trace == old(trace) + [e]
      ensures Current() == Step(old(Current()), e, store.maxAttempts).0
      ensures Step(old(Current()), e, store.maxAttempts).1 == Answer(false) ==> LastRefused()
      ensures Endings(token) == old(Endings(token))
                                + if Effective(old(Current()), e, store.maxAttempts, token, Ending) then 1 else 0
      ensures Beats(token) == old(Beats(token))
                              + if Effective(old(Current()), e, store.maxAttempts, token, Beating) then 1 else 0
    {
      OneMore(start, trace, e, store.maxAttempts);
      StepInv(Current(), e, store.maxAttempts);
      TallyOneMore(start, trace, e, store.maxAttempts, token, Ending);
      TallyOneMore(start, trace, e, store.maxAttempts, token, Beating);
      trace := trace + [e];
      assert trace[..|trace| - 1] == old(trace);
    }

    /** Every lease handed out to this worker stays on record. */
    ghost predicate Mine(lease: Lease)
      reads this, store
    {
      lease.token in Current().granted && Current().granted[lease.token] == Grant(lease, workerId)
    }

    /** The job is in the given state for the given reason. */
    ghost predicate HasFailed(lease: Lease, alias: string, state: JobState)
      reads store
    {
      && lease.jobId in store.jobs
      && store.jobs[lease.jobId].state == state && store.jobs[lease.jobId].failureAlias == Some(alias)
    }

    /** The last thing done was refused by the queue. */
    ghost predicate LastRefused()
      reads this, store
    {
      && trace != []
      && Step(After(start, trace[..|trace| - 1], store.maxAttempts), trace[|trace| - 1], store.maxAttempts).1 == Answer(false)
    }

    /** The last thing done was an attempt to end the lease, and the queue refused it. */
    ghost predicate EndRefused(token: Token)
      reads this, store
    {
      LastRefused() && Uses(trace[|trace| - 1], token) && !trace[|trace| - 1].Heartbeat?
    }

    /** All beats before some tick were granted; then the queue was unavailable, or refused the beat of that tick. */
    ghost predicate BeatMissed(lease: Lease, ticks: seq<Tick>, beats: nat)
      reads this, store
    {
      exists i :: 0 <= i < |ticks| && Beats(lease.token) == beats + i && MissedAt(lease, ticks[i])
    }

    ghost predicate MissedAt(lease: Lease, tick: Tick)
      reads this, store
    {
      tick.Beat? ==> LastRefused() && trace[|trace| - 1] == Event.Heartbeat(lease, workerId, leaseSeconds, tick.now)
    }

    /** At some moment since the trace had that length, the run was not there. */
    ghost predicate WasMissing(runId: RunId, since: nat)
      reads this, store
    {
      exists n :: since <= n <= |trace| && MissingAt(runId, trace[..n])
    }

    ghost predicate MissingAt(runId: RunId, events: seq<Event>)
      reads this`start, store
    {
      runId !in After(start, events, store.maxAttempts).db.runs
    }

    method GiveUp(lease: Lease, alias: string, retryable: bool, delay: int, now: int) returns (ok: bool)
      requires Valid() && ValidAlias(alias) && 0 <= delay <= 3600 && Mine(lease)
      requires if retryable then !lease.finalAttempt else alias == "run-not-found"
      modifies this`trace, store
      ensures Valid() && trace == old(trace) + [Event.Fail(lease, workerId, alias, retryable, delay, now)] && Mine(lease)
      ensures Endings(lease.token) == old(Endings(lease.token)) + if ok then 1 else 0
      ensures Beats(lease.token) == old(Beats(lease.token))
      ensures !ok ==> store.Abstract() == old(store.Abstract()) && LastRefused()
      ensures ok ==> HasFailed(lease, alias, if retryable then Queued else Failed)
      ensures ok ==> store.jobs[lease.jobId].availableAt == now + delay * 1_000_000
    {
      ghost var e := Event.Fail(lease, workerId, alias, retryable, delay, now);
      ghost var before := Current();
      var result := store.Fail(lease, workerId, alias, retryable, delay, now);
      ok := result.value;
      if ok && retryable {
        RetryQueues(before, e, store.maxAttempts);
      }
      Record(e, lease.token);
      GrantsGrow(before, e, store.maxAttempts);
    }

    method CommitResult(run: Run, lease: Lease, now: int) returns (ok: bool)
      requires Valid() && run.status != Running && run.endedAt.Some? && Mine(lease)
      modifies this`trace, store
      ensures Valid() && trace == old(trace) + [Event.Commit(lease, workerId, run, now)] && Mine(lease)
      ensures Endings(lease.token) == old(Endings(lease.token)) + if ok then 1 else 0
      ensures Beats(lease.token) == old(Beats(lease.token))
      ensures !ok ==> store.Abstract() == old(store.Abstract()) && LastRefused()
      ensures ok ==>
        && run.id in store.runs && store.runs[run.id] == run
        && lease.jobId in store.jobs
        && store.jobs[lease.jobId].state == (if run.status == RunCompleted then Completed else Failed)
        && store.jobs[lease.jobId].failureAlias == (if run.status == RunCompleted then None else run.failureAlias)
    {
      ghost var e := Event.Commit(lease, workerId, run, now);
      ghost var before := Current();
      var result := store.CommitLeasedResult(run, lease, workerId, now);
      ok := result.value;
      Record(e, lease.token);
      GrantsGrow(before, e, store.maxAttempts);
    }

    method SendHeartbeat(lease: Lease, now: int) returns (ok: bool)
      requires Valid() && Mine(lease)
      modifies this`trace, store
      ensures Valid() && trace == old(trace) + [Event.Heartbeat(lease, workerId, leaseSeconds, now)] && Mine(lease)
      ensures Endings(lease.token) == old(Endings(lease.token))
      ensures Beats(lease.token) == old(Beats(lease.token)) + if ok then 1 else 0
      ensures !ok ==> store.Abstract() == old(store.Abstract()) && LastRefused()
    {
      ghost var e := Event.Heartbeat(lease, workerId, leaseSeconds, now);
      ghost var before := Current();
      var result := store.Heartbeat(lease, workerId, leaseSeconds, now);
      ok := result.value;
      Record(e, lease.token);
      GrantsGrow(before, e, store.maxAttempts);
    }

    /** The others never take a grant back. */
    lemma StillMine(lease: Lease, before: seq<Event>)
      requires Valid() && Extends(before) && AllAllowed(start, before, store.maxAttempts)
      requires lease.token in After(start, before, store.maxAttempts).granted
      requires After(start, before, store.maxAttempts).granted[lease.token] == Grant(lease, workerId)
      ensures Mine(lease)
    {
      var rest := trace[|before|..];
      assert trace == before + rest;
      RunsSplit(start, before, rest, store.maxAttempts);
      GrantsStay(After(start, before, store.maxAttempts), rest, store.maxAttempts, lease.token);
    }

    method Yield(lease: Lease)
      requires Valid() && Mine(lease)
      modifies this`trace, store
      ensures Valid() && Extends(old(trace)) && Mine(lease)
      ensures Endings(lease.token) == old(Endings(lease.token)) && Beats(lease.token) == old(Beats(lease.token))
    {
      ghost var before := trace;
      Interfere(lease.token);
      StillMine(lease, before);
      NothingUnder(lease.token, before);
    }

    /** What the others do leaves the counts of this worker's lease alone. */
    lemma NothingUnder(token: Token, before: seq<Event>)
      requires Extends(before) && Untouched(trace[|before|..], token)
      ensures Endings(token) == Tally(start, before, store.maxAttempts, token, Ending)
      ensures Beats(token) == Tally(start, before, store.maxAttempts, token, Beating)
    {
      var rest := trace[|before|..];
      assert trace == before + rest;
      TallyAppend(start, before, rest, store.maxAttempts, token, Ending);
      TallyAppend(start, before, rest, store.maxAttempts, token, Beating);
      TallyUntouched(After(start, before, store.maxAttempts), rest, store.maxAttempts, token, Ending);
      TallyUntouched(After(start, before, store.maxAttempts), rest, store.maxAttempts, token, Beating);
    }

    /**
      The heartbeat thread, while the executor runs: it stops at the first beat that is refused or not sent,
      and the lease counts as kept only if every beat was granted.
     */
    method KeepAlive(lease: Lease, ticks: seq<Tick>) returns (lost: bool)
      requires Valid() && Mine(lease)
      modifies this`trace, store
      ensures Valid() && Extends(old(trace)) && Mine(lease)
      ensures Endings(lease.token) == old(Endings(lease.token))
      ensures lost ==> BeatMissed(lease, ticks, old(Beats(lease.token)))
      ensures !lost ==> Beats(lease.token) == old(Beats(lease.token)) + |ticks|
    {
      lost := false;
      for i := 0 to |ticks|
        invariant Valid() && Extends(old(trace)) && Mine(lease)
        invariant Endings(lease.token) == old(Endings(lease.token))
        invariant Beats(lease.token) == old(Beats(lease.token)) + i
      {
        Yield(lease);
        var active := false;
        if ticks[i].Beat? {
          active := SendHeartbeat(lease, ticks[i].now);
        }
        if !active {
          assert MissedAt(lease, ticks[i]);
          lost := true;
          return;
        }
      }
    }

    method ClaimJob(claimAt: int, hidden: set<JobId>, token: Token) returns (lease: Option<Lease>)
      requires Valid() && token !in Current().granted
      modifies this`trace, store
      ensures Valid() && trace == old(trace) + [Event.Claim(workerId, leaseSeconds, hidden, token, claimAt)]
      ensures Endings(token) == old(Endings(token)) && Beats(token) == old(Beats(token))
      ensures lease.Some? ==> Mine(lease.value) && lease.value.token == token
      ensures lease.Some? <==> Step(old(Current()), trace[|trace| - 1], store.maxAttempts).1.Granted?
    {
      ghost var e := Event.Claim(workerId, leaseSeconds, hidden, token, claimAt);
      ghost var before := Current();
      var claimed := store.Claim(workerId, leaseSeconds, claimAt, hidden, token);
      lease := claimed.value;
      Record(e, token);
      GrantsGrow(before, e, store.maxAttempts);
    }

    /** The run as a final failure leaves it. */
    function FailedRun(run: Run, alias: string, endedAt: int): Run {
      run.(status := RunFailed, failureAlias := Some(alias), endedAt := Some(endedAt))
    }

    method RecordFailure(lease: Lease, run: Run, alias: string, endedAt: int, concludeAt: int) returns (outcome: Outcome)
      requires Valid() && Mine(lease) && ValidAlias(alias)
      modifies this`trace, store
      ensures Valid() && Extends(old(trace)) && Mine(lease)
      ensures outcome in {Abandoned, RetryScheduled, LeaseLost} && (outcome == LeaseLost ==> EndRefused(lease.token))
      ensures Endings(lease.token) == old(Endings(lease.token)) + if outcome == LeaseLost then 0 else 1
      ensures Beats(lease.token) == old(Beats(lease.token))
      ensures outcome == RetryScheduled ==> !lease.finalAttempt && HasFailed(lease, alias, Queued)
      ensures outcome == RetryScheduled ==> IsAvailableAt(lease, concludeAt + retryDelay * 1_000_000)
      ensures outcome == Abandoned ==> HasEnded(lease, FailedRun(run, alias, endedAt), Failed) && lease.finalAttempt
    {
      if lease.finalAttempt {
        var committed := CommitResult(FailedRun(run, alias, endedAt), lease, concludeAt);
        return if committed then Abandoned else LeaseLost;
      } else {
        var scheduled := GiveUp(lease, alias, true, retryDelay, concludeAt);
        return if scheduled then RetryScheduled else LeaseLost;
      }
    }

    /** What follows an execution whose lease was not lost: a fenced commit, or a recorded failure. */
    method Conclude(lease: Lease, execution: Execution, endedAt: int, concludeAt: int) returns (outcome: Outcome)
      requires Valid() && Mine(lease)
      modifies this`trace, store
      ensures Valid() && Extends(old(trace)) && Mine(lease)
      ensures outcome in {Done, Abandoned, RetryScheduled, LeaseLost} && (outcome == LeaseLost ==> EndRefused(lease.token))
      ensures Endings(lease.token) == old(Endings(lease.token)) + if outcome == LeaseLost then 0 else 1
      ensures Beats(lease.token) == old(Beats(lease.token))
      ensures IsReported(outcome, lease, execution, endedAt)
      ensures outcome in {RetryScheduled, Abandoned} ==> TellsWhy(lease, execution)
      ensures outcome == RetryScheduled ==> IsAvailableAt(lease, concludeAt + retryDelay * 1_000_000)
      ensures outcome == Abandoned ==> IsMarkedFailed(lease, execution.run, endedAt)
    {
      if Succeeded(execution) {
        var committed := CommitResult(execution.run, lease, concludeAt);
        return if committed then Done else LeaseLost;
      }
      AliasIsValid(execution);
      outcome := RecordFailure(lease, execution.run, FailureAlias(execution), endedAt, concludeAt);
    }

    lemma AliasIsValid(execution: Execution)
      ensures ValidAlias(FailureAlias(execution))
    {
      AliasesAreValid();
    }

    /** The run and the end of the job were written together. */
    ghost predicate HasEnded(lease: Lease, run: Run, state: JobState)
      reads store
    {
      && run.id in store.runs && store.runs[run.id] == run
      && lease.jobId in store.jobs && store.jobs[lease.jobId].state == state
      && store.jobs[lease.jobId].failureAlias == (if run.status == RunCompleted then None else run.failureAlias)
    }

    /** When the job may be claimed again, if at all. */
    ghost predicate IsAvailableAt(lease: Lease, at: int)
      reads store
    {
      lease.jobId in store.jobs && store.jobs[lease.jobId].availableAt == at
    }

    /** The alias on the job's row tells how the execution went wrong. */
    ghost predicate TellsWhy(lease: Lease, execution: Execution)
      reads store
    {
      && lease.jobId in store.jobs && store.jobs[lease.jobId].failureAlias.Some?
      && var alias, run := store.jobs[lease.jobId].failureAlias.value, execution.run;
         && (execution.raised ==> alias == "engine-harness-error")
         && (!execution.raised ==>
               if run.status == RunFailed && run.failureAlias.Some? && ValidAlias(run.failureAlias.value) then
                 alias == run.failureAlias.value
               else
                 alias == "run-result-invalid")
    }

    /** The run was marked as failed at the given time, with the alias on the job's row, and otherwise left alone. */
    ghost predicate IsMarkedFailed(lease: Lease, run: Run, endedAt: int)
      reads store
    {
      && run.id in store.runs && lease.jobId in store.jobs
      && var row := store.runs[run.id];
         && row.status == RunFailed && row.failureAlias == store.jobs[lease.jobId].failureAlias
         && row.endedAt == Some(endedAt) && row.id == run.id && row.content == run.content
    }

    /**
      What the outcome of an execution means: a completed run and its job were written; or the job was put back
      with the alias of the failure; or, on the last attempt, run and job were written as failed with it.
     */
    ghost predicate IsReported(outcome: Outcome, lease: Lease, execution: Execution, endedAt: int)
      reads store
    {
      match outcome
      case Done =>
        && !execution.raised && execution.run.status == RunCompleted && execution.run.endedAt.Some?
        && HasEnded(lease, execution.run, Completed)
      case RetryScheduled =>
        && (execution.raised || execution.run.status != RunCompleted || execution.run.endedAt.None?)
        && !lease.finalAttempt && HasFailed(lease, FailureAlias(execution), Queued)
      case Abandoned =>
        && (execution.raised || execution.run.status != RunCompleted || execution.run.endedAt.None?)
        && lease.finalAttempt
        && HasEnded(lease, FailedRun(execution.run, FailureAlias(execution), endedAt), Failed)
      case RunMissing => HasFailed(lease, "run-not-found", Failed)
      case Idle => true
      case LeaseLost => true
    }

    /** Jobs and runs agree after whatever this worker and the others have done. */
    lemma AgreementNow()
      requires Valid() && Agreement(start)
      ensures Agreement(Current())
    {
      AgreementInEveryRun(start, trace, store.maxAttempts);
    }

    /** Why a lease counts as lost. */
    ghost predicate WhyLost(lease: Lease, ticks: seq<Tick>, joinTimedOut: bool, beats: nat)
      reads this, store
    {
      joinTimedOut || BeatMissed(lease, ticks, beats) || EndRefused(lease.token)
    }

    /** A run that cannot be found fails its job without a retry. */
    method FailMissing(lease: Lease, concludeAt: int) returns (outcome: Outcome)
      requires Valid() && Mine(lease) && lease.runId !in store.runs
      modifies this`trace, store
      ensures Valid() && Extends(old(trace)) && Mine(lease) && WasMissing(lease.runId, |old(trace)|)
      ensures outcome in {RunMissing, LeaseLost} && (outcome == LeaseLost ==> EndRefused(lease.token))
      ensures Endings(lease.token) == old(Endings(lease.token)) + if outcome == LeaseLost then 0 else 1
      ensures outcome == RunMissing ==> HasFailed(lease, "run-not-found", Failed) && IsAvailableAt(lease, concludeAt)
    {
      AliasesAreValid();
      Yield(lease);
      var failed := GiveUp(lease, "run-not-found", false, 0, concludeAt);
      assert trace[..|old(trace)|] == old(trace);
      assert MissingAt(lease.runId, trace[..|old(trace)|]);
      return if failed then RunMissing else LeaseLost;
    }

    /** The executor runs beside the heartbeat thread, and its result is recorded if the lease was kept. */
    method Execute(lease: Lease, ticks: seq<Tick>, joinTimedOut: bool, execution: Execution, endedAt: int, concludeAt: int)
        returns (outcome: Outcome)
      requires Valid() && Mine(lease)
      modifies this`trace, store
      ensures Valid() && Extends(old(trace)) && Mine(lease)
      ensures outcome in {Done, Abandoned, RetryScheduled, LeaseLost}
      ensures outcome == LeaseLost ==> WhyLost(lease, ticks, joinTimedOut, old(Beats(lease.token)))
      ensures outcome != LeaseLost ==> !joinTimedOut && Beats(lease.token) == old(Beats(lease.token)) + |ticks|
      ensures Endings(lease.token) == old(Endings(lease.token)) + if outcome == LeaseLost then 0 else 1
      ensures IsReported(outcome, lease, execution, endedAt)
      ensures outcome in {RetryScheduled, Abandoned} ==> TellsWhy(lease, execution)
      ensures outcome == RetryScheduled ==> IsAvailableAt(lease, concludeAt + retryDelay * 1_000_000)
      ensures outcome == Abandoned ==> IsMarkedFailed(lease, execution.run, endedAt)
    {
      var lost := KeepAlive(lease, ticks);
      if lost || joinTimedOut {
        return LeaseLost;
      }
      Yield(lease);
      outcome := Conclude(lease, execution, endedAt, concludeAt);
    }

    /** Runs a claimed job. */
    method Attempt(lease: Lease, ticks: seq<Tick>, joinTimedOut: bool, execution: Execution, endedAt: int, concludeAt: int)
        returns (outcome: Outcome)
      requires Valid() && Mine(lease)
      modifies this`trace, store
      ensures Valid() && Extends(old(trace)) && Mine(lease) && outcome != Idle
      ensures outcome == LeaseLost ==> WhyLost(lease, ticks, joinTimedOut, old(Beats(lease.token)))
      ensures outcome in {Done, Abandoned, RetryScheduled} ==>
        !joinTimedOut && Beats(lease.token) == old(Beats(lease.token)) + |ticks|
      ensures outcome == RunMissing ==> WasMissing(lease.runId, |old(trace)|)
      ensures Endings(lease.token) == old(Endings(lease.token)) + if outcome == LeaseLost then 0 else 1
      ensures IsReported(outcome, lease, execution, endedAt)
      ensures outcome in {RetryScheduled, Abandoned} ==> TellsWhy(lease, execution)
      ensures outcome == RetryScheduled ==> IsAvailableAt(lease, concludeAt + retryDelay * 1_000_000)
      ensures outcome == RunMissing ==> IsAvailableAt(lease, concludeAt)
      ensures outcome == Abandoned ==> IsMarkedFailed(lease, execution.run, endedAt)
    {
      Yield(lease);
      if lease.runId !in store.runs {
        outcome := FailMissing(lease, concludeAt);
      } else {
        outcome := Execute(lease, ticks, joinTimedOut, execution, endedAt, concludeAt);
      }
    }

    /**
      Claims a job, runs it and records the outcome.  `ticks`, `execution`, `joinTimedOut` and the times are
      whatever the heartbeat thread, the executor and the clock happen to do.

      The outcome tells what was written under the lease after its claim: nothing if the worker is idle or has
      lost its lease, and otherwise exactly one transaction, heartbeats apart.
     */
    method RunOne(claimAt: int, hidden: set<JobId>, token: Token, ticks: seq<Tick>, joinTimedOut: bool,
                  execution: Execution, endedAt: int, concludeAt: int) returns (result: WorkerResult)
      requires Valid() && token !in Current().granted
      modifies this`trace, store
      ensures Valid() && Extends(old(trace))
      ensures |trace| > |old(trace)|
      ensures trace[|old(trace)|] == Event.Claim(workerId, leaseSeconds, hidden, token, claimAt)
      ensures result.lease.Some? ==> Mine(result.lease.value) && result.lease.value.token == token
      ensures Endings(token) == old(Endings(token)) + if result.outcome in {Idle, LeaseLost} then 0 else 1
      ensures result.outcome == Idle <==> result.lease.None?
      ensures result.outcome == LeaseLost ==>
        WhyLost(result.lease.value, ticks, joinTimedOut, old(Beats(token)))
      ensures result.outcome in {Done, Abandoned, RetryScheduled} ==>
        !joinTimedOut && Beats(token) == old(Beats(token)) + |ticks|
      ensures result.outcome == RunMissing ==> WasMissing(result.lease.value.runId, |old(trace)|)
      ensures result.lease.Some? ==> IsReported(result.outcome, result.lease.value, execution, endedAt)
      ensures result.outcome in {RetryScheduled, Abandoned} ==> TellsWhy(result.lease.value, execution)
      ensures result.outcome == RetryScheduled ==>
        IsAvailableAt(result.lease.value, concludeAt + retryDelay * 1_000_000)
      ensures result.outcome == RunMissing ==> IsAvailableAt(result.lease.value, concludeAt)
      ensures result.outcome == Abandoned ==> IsMarkedFailed(result.lease.value, execution.run, endedAt)
    {
      var claimed := ClaimJob(claimAt, hidden, token);
      if claimed.None? {
        return WorkerResult(Idle, None);
      }
      var outcome := Attempt(claimed.value, ticks, joinTimedOut, execution, endedAt, concludeAt);
      return WorkerResult(outcome, claimed);
    }
  }

  lemma AliasesAreValid()
    ensures ValidAlias("run-not-found") && ValidAlias("engine-harness-error") && ValidAlias("run-result-invalid")
  {}
}

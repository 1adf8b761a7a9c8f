/**
  Runs of the job queue: any number of workers, any interleaving of their transactions, any crashes (a
  crashed worker simply sends nothing more), any clock values.
 */
module QueueRuns {
  import opened Common
  import opened JobQueue

  /** A lease that was handed out, and to whom. */
  datatype Grant = Grant(lease: Lease, worker: string)

  /** The database and, for the statements below, every lease ever granted, by its token. */
  datatype World = World(db: Db, granted: map<Token, Grant>)

  const EMPTY := World(Db(map[], map[]), map[])

  datatype Event =
    | Enqueue(runId: RunId, newId: JobId, createdAt: int, now: int)
    | SaveQueued(run: Run, newId: JobId, createdAt: int, now: int)
    | Claim(worker: string, seconds: int, hidden: set<JobId>, token: Token, now: int)
    | Heartbeat(lease: Lease, worker: string, seconds: int, now: int)
    | Complete(lease: Lease, worker: string, now: int)
    | Fail(lease: Lease, worker: string, alias: string, retryable: bool, delay: int, now: int)
    | Commit(lease: Lease, worker: string, run: Run, now: int)

  datatype Response = Refused | JobIs(job: JobId) | Granted(lease: Lease) | Nothing | Answer(ok: bool)

  /** The argument checks made before a transaction is opened. */
  predicate WellFormed(e: Event) {
    match e
    case Enqueue(_, _, _, _) => true
    case SaveQueued(run, _, _, _) => run.status == Running && run.endedAt.None?
    case Claim(worker, seconds, _, _, _) => ValidAlias(worker) && ValidLeaseSeconds(seconds)
    case Heartbeat(_, worker, seconds, _) => ValidAlias(worker) && ValidLeaseSeconds(seconds)
    case Complete(_, worker, _) => ValidAlias(worker)
    case Fail(_, worker, alias, _, delay, _) => ValidAlias(worker) && ValidAlias(alias) && 0 <= delay <= 3600
    case Commit(_, _, run, _) => run.status != Running && run.endedAt.Some?
  }

  /** New job ids and tokens are fresh. */
  predicate Fresh(w: World, e: Event) {
    match e
    case Enqueue(_, newId, _, _) => newId !in w.db.jobs
    case SaveQueued(_, newId, _, _) => newId !in w.db.jobs
    case Claim(_, _, _, token, _) => token !in w.granted
    case _ => true
  }

  ghost function Step(w: World, e: Event, max: MaxAttempts): (World, Response) {
    if !WellFormed(e) then (w, Refused)
    else match e
      case Enqueue(runId, newId, createdAt, now) =>
        var (db, job) := Enqueued(w.db, runId, newId, now, createdAt);
        (w.(db := db), JobIs(job))
      case SaveQueued(run, newId, createdAt, now) =>
        var (db, job) := QueuedRunSaved(w.db, run, newId, now, createdAt);
        (w.(db := db), JobIs(job))
      case Claim(worker, seconds, hidden, token, now) =>
        var (db, lease) := Claimed(w.db, worker, seconds, now, hidden, token, max);
        if lease.None? then (w.(db := db), Nothing)
        else (World(db, w.granted[token := Grant(lease.value, worker)]), Granted(lease.value))
      case Heartbeat(lease, worker, seconds, now) =>
        var (db, ok) := Extended(w.db, lease, worker, seconds, now);
        (w.(db := db), Answer(ok))
      case Complete(lease, worker, now) =>
        var (db, ok) := Finished(w.db, lease, worker, now);
        (w.(db := db), Answer(ok))
      case Fail(lease, worker, alias, retryable, delay, now) =>
        var (db, ok) := GivenUp(w.db, lease, worker, alias, retryable, delay, now, max);
        (w.(db := db), Answer(ok))
      case Commit(lease, worker, run, now) =>
        var (db, ok) := Committed(w.db, run, lease, worker, now);
        (w.(db := db), Answer(ok))
  }

  ghost function After(w: World, events: seq<Event>, max: MaxAttempts): World
    decreases |events|
  {
    if events == [] then w else After(Step(w, events[0], max).0, events[1..], max)
  }

  ghost predicate Possible(w: World, events: seq<Event>, max: MaxAttempts)
    decreases |events|
  {
    events != [] ==> Fresh(w, events[0]) && Possible(Step(w, events[0], max).0, events[1..], max)
  }

  /** The object does what the event says: each of its operations is one step, argument checks included. */
  method Perform(store: Store, e: Event, ghost w: World) returns (response: Response)
    requires store.Valid() && w.db == store.Abstract() && Fresh(w, e)
    modifies store
    ensures store.Valid()
    ensures var (after, answer) := Step(w, e, store.maxAttempts);
            store.Abstract() == after.db && response == answer
  {
    match e {
      case Enqueue(runId, newId, createdAt, now) =>
        var job := store.Enqueue(runId, newId, now, createdAt);
        response := JobIs(job);
      case SaveQueued(run, newId, createdAt, now) =>
        var saved := store.SaveQueuedRun(run, newId, now, createdAt);
        response := if saved.Err? then Refused else JobIs(saved.value);
      case Claim(worker, seconds, hidden, token, now) =>
        var claimed := store.Claim(worker, seconds, now, hidden, token);
        response := if claimed.Err? then Refused
                    else if claimed.value.None? then Nothing else Granted(claimed.value.value);
      case Heartbeat(lease, worker, seconds, now) =>
        var extended := store.Heartbeat(lease, worker, seconds, now);
        response := if extended.Err? then Refused else Answer(extended.value);
      case Complete(lease, worker, now) =>
        var completed := store.Complete(lease, worker, now);
        response := if completed.Err? then Refused else Answer(completed.value);
      case Fail(lease, worker, alias, retryable, delay, now) =>
        var failed := store.Fail(lease, worker, alias, retryable, delay, now);
        response := if failed.Err? then Refused else Answer(failed.value);
      case Commit(lease, worker, run, now) =>
        var committed := store.CommitLeasedResult(run, lease, worker, now);
        response := if committed.Err? then Refused else Answer(committed.value);
    }
  }

  // ---------------------------------------------------------------- what one event does to one row

  /** An operation that a holder ends its lease with, and that succeeds. */
  ghost predicate HolderEnds(w: World, e: Event, id: JobId) {
    && WellFormed(e)
    && (e.Complete? || e.Fail? || e.Commit?)
    && e.lease.jobId == id
    && Active(w.db.jobs, e.lease, e.worker, e.now)
    && (e.Commit? ==> e.lease.runId == e.run.id == w.db.jobs[id].runId)
  }

  ghost predicate HolderExtends(w: World, e: Event, id: JobId) {
    && WellFormed(e) && e.Heartbeat? && e.lease.jobId == id && Active(w.db.jobs, e.lease, e.worker, e.now)
  }

  /** The changes that a row can undergo. */
  ghost predicate RowMove(w: World, e: Event, max: MaxAttempts, id: JobId, job: Job, job': Job) {
    || job' == job
    || (HolderExtends(w, e, id) && job' == job.(expiresAt := Some(e.now + e.seconds * SECOND)))
    || (e.Claim? && WellFormed(e) && Claimable(job, e.now, max) && e.token in Step(w, e, max).0.granted
        && job' == Taken(job, e.worker, e.token, e.now + e.seconds * SECOND))
    || (e.Claim? && Exhausted(job, e.now, max)
        && job' == Released(job).(state := Failed, failureAlias := Some("attempt-limit-exhausted")))
    || (HolderEnds(w, e, id)
        && job' == Released(job).(state := job'.state, availableAt := job'.availableAt, failureAlias := job'.failureAlias)
        && job'.state != Leased && (job'.state == Queued ==> job.attempts < max))
  }

  lemma StepMovesRow(w: World, e: Event, max: MaxAttempts, id: JobId)
    requires Fresh(w, e) && id in w.db.jobs
    ensures id in Step(w, e, max).0.db.jobs
    ensures RowMove(w, e, max, id, w.db.jobs[id], Step(w, e, max).0.db.jobs[id])
  {
    if WellFormed(e) && e.Claim? {
      var swept := Swept(w.db.jobs, e.now, max);
      assert id in swept;
    }
  }

  lemma NewRow(w: World, e: Event, max: MaxAttempts, id: JobId)
    requires Fresh(w, e) && id !in w.db.jobs && id in Step(w, e, max).0.db.jobs
    ensures e.Enqueue? || e.SaveQueued?
    ensures var runId := if e.Enqueue? then e.runId else e.run.id;
            && id == e.newId && JobOfRun(w.db.jobs, runId) == None
            && Step(w, e, max).0.db.jobs[id] == NewJob(runId, e.now, e.createdAt)
  {}

  // ---------------------------------------------------------------- the invariant

  /**
    Exactly the leased rows carry an owner, a token and an expiry, and their token is that of a grant with
    the row's own job, run and attempt number.  A queued row always has attempts left, so the queued arm of
    the sweep never applies.
   */
  ghost predicate RowOk(w: World, max: MaxAttempts, id: JobId, job: Job) {
    && (job.state == Leased <==> job.owner.Some?)
    && (job.state == Leased <==> job.token.Some?)
    && (job.state == Leased <==> job.expiresAt.Some?)
    && job.attempts <= max
    && (job.state == Queued ==> job.attempts < max)
    && (job.state == Leased ==> IsGrantOf(w, max, id, job))
  }

  ghost predicate IsGrantOf(w: World, max: MaxAttempts, id: JobId, job: Job)
    requires job.state == Leased ==> job.token.Some? && job.owner.Some?
  {
    && job.state == Leased
    && job.attempts >= 1
    && job.token.value in w.granted
    && var grant := w.granted[job.token.value];
       && grant.worker == job.owner.value
       && grant.lease.jobId == id
       && grant.lease.runId == job.runId
       && grant.lease.attempt == job.attempts
       && (grant.lease.finalAttempt <==> job.attempts >= max)
  }

  ghost predicate GrantOk(w: World, token: Token, grant: Grant) {
    && grant.lease.token == token
    && grant.lease.jobId in w.db.jobs
    && grant.lease.runId == w.db.jobs[grant.lease.jobId].runId
  }

  ghost predicate Inv(w: World, max: MaxAttempts) {
    && OneJobPerRun(w.db.jobs)
    && (forall id :: id in w.db.jobs ==> RowOk(w, max, id, w.db.jobs[id]))
    && (forall token :: token in w.granted ==> GrantOk(w, token, w.granted[token]))
  }

  lemma EmptyInv(max: MaxAttempts)
    ensures Inv(EMPTY, max)
  {}

  /** What a claim adds to the grants. */
  lemma GrantsGrow(w: World, e: Event, max: MaxAttempts)
    requires Fresh(w, e)
    ensures var (w', response) := Step(w, e, max);
            && (response.Granted? <==> e.Claim? && e.token in w'.granted)
            && w'.granted == if response.Granted? then w.granted[e.token := Grant(response.lease, e.worker)] else w.granted
  {}

  lemma GrantIs(w: World, e: Event, max: MaxAttempts)
    requires Inv(w, max) && Fresh(w, e) && Step(w, e, max).1.Granted?
    ensures var (w', response) := Step(w, e, max);
            var id := response.lease.jobId;
            && WellFormed(e)
            && id in w.db.jobs && Claimable(w.db.jobs[id], e.now, max)
            && w'.db.jobs[id] == Taken(w.db.jobs[id], e.worker, e.token, e.now + e.seconds * SECOND)
            && response.lease == Lease(id, w.db.jobs[id].runId, e.token, w.db.jobs[id].attempts + 1,
                                       e.now + e.seconds * SECOND, w.db.jobs[id].attempts + 1 >= max)
  {
    var swept := Swept(w.db.jobs, e.now, max);
    var id := Pick(swept, e.hidden, e.now, max).value;
    assert swept[id].state != Failed;
    assert swept[id] == w.db.jobs[id];
  }

  lemma TakenRowIsGranted(w: World, e: Event, max: MaxAttempts, id: JobId)
    requires Inv(w, max) && Fresh(w, e) && id in w.db.jobs
    requires e.Claim? && id in Step(w, e, max).0.db.jobs && Step(w, e, max).0.db.jobs[id].token == Some(e.token)
    ensures Step(w, e, max).1.Granted? && Step(w, e, max).1.lease.jobId == id
  {
    StepMovesRow(w, e, max, id);
    GrantsGrow(w, e, max);
    var swept := Swept(w.db.jobs, e.now, max);
    assert w.db.jobs[id].token != Some(e.token) && swept[id].token != Some(e.token) by {
      assert RowOk(w, max, id, w.db.jobs[id]);
    }
    GrantIs(w, e, max);
  }

  lemma StepKeepsRowOk(w: World, e: Event, max: MaxAttempts, id: JobId)
    requires Inv(w, max) && Fresh(w, e) && id in w.db.jobs
    ensures id in Step(w, e, max).0.db.jobs
    ensures RowOk(Step(w, e, max).0, max, id, Step(w, e, max).0.db.jobs[id])
  {
    StepMovesRow(w, e, max, id);
    GrantsGrow(w, e, max);
    var job, job' := w.db.jobs[id], Step(w, e, max).0.db.jobs[id];
    assert RowOk(w, max, id, job);
    if e.Claim? && job' != job && job'.state == Leased {
      TakenRowIsGranted(w, e, max, id);
      GrantIs(w, e, max);
    }
  }

  lemma StepInv(w: World, e: Event, max: MaxAttempts)
    requires Inv(w, max) && Fresh(w, e)
    ensures Inv(Step(w, e, max).0, max)
  {
    var w' := Step(w, e, max).0;
    GrantsGrow(w, e, max);
    forall id | id in w'.db.jobs
      ensures RowOk(w', max, id, w'.db.jobs[id])
      ensures id in w.db.jobs ==> w'.db.jobs[id].runId == w.db.jobs[id].runId
    {
      if id in w.db.jobs {
        StepMovesRow(w, e, max, id);
        StepKeepsRowOk(w, e, max, id);
      } else {
        NewRow(w, e, max, id);
      }
    }
    forall id | id in w.db.jobs ensures id in w'.db.jobs { StepMovesRow(w, e, max, id); }
    if Step(w, e, max).1.Granted? { GrantIs(w, e, max); }
    forall a, b | a in w'.db.jobs && b in w'.db.jobs && w'.db.jobs[a].runId == w'.db.jobs[b].runId
      ensures a == b
    {
      if a !in w.db.jobs { NewRow(w, e, max, a); }
      if b !in w.db.jobs { NewRow(w, e, max, b); }
    }
  }

  lemma {:induction false} RunInv(w: World, events: seq<Event>, max: MaxAttempts)
    requires Inv(w, max) && Possible(w, events, max)
    ensures Inv(After(w, events, max), max)
    decreases |events|
  {
    if events != [] {
      StepInv(w, events[0], max);
      RunInv(Step(w, events[0], max).0, events[1..], max);
    }
  }

  // ---------------------------------------------------------------- fencing

  /** The holders of a job that pass the fencing check, at whatever time each of them asks, are one holder. */
  lemma OneActiveHolder(w: World, lease: Lease, worker: string, now: int, lease': Lease, worker': string, now': int)
    requires lease.jobId == lease'.jobId
    requires Active(w.db.jobs, lease, worker, now) && Active(w.db.jobs, lease', worker', now')
    ensures lease.token == lease'.token && worker == worker'
  {}

  /** A granted lease whose token its job no longer carries. */
  ghost predicate Superseded(w: World, lease: Lease) {
    && lease.token in w.granted && w.granted[lease.token].lease.jobId == lease.jobId
    && lease.jobId in w.db.jobs && w.db.jobs[lease.jobId].token != Some(lease.token)
  }

  lemma StepKeepsSuperseded(w: World, e: Event, max: MaxAttempts, lease: Lease)
    requires Inv(w, max) && Fresh(w, e) && Superseded(w, lease)
    ensures Superseded(Step(w, e, max).0, lease)
  {
    StepMovesRow(w, e, max, lease.jobId);
    GrantsGrow(w, e, max);
  }

  /** Whatever is attempted with a superseded lease, by anyone, at any time, is refused and changes nothing. */
  lemma SupersededIsPowerless(w: World, e: Event, max: MaxAttempts, lease: Lease)
    requires Superseded(w, lease)
    requires (e.Heartbeat? || e.Complete? || e.Fail? || e.Commit?) && e.lease == lease
    ensures Step(w, e, max).0 == w
    ensures Step(w, e, max).1 == if WellFormed(e) then Answer(false) else Refused
  {}

  /** Once superseded, powerless for ever. */
  lemma {:induction false} FencedForever(w: World, events: seq<Event>, max: MaxAttempts, lease: Lease, e: Event)
    requires Inv(w, max) && Possible(w, events, max) && Superseded(w, lease)
    requires (e.Heartbeat? || e.Complete? || e.Fail? || e.Commit?) && e.lease == lease
    ensures var w' := After(w, events, max);
            Superseded(w', lease) && Step(w', e, max).0 == w' && Step(w', e, max).1 in {Answer(false), Refused}
    decreases |events|
  {
    if events == [] {
      SupersededIsPowerless(w, e, max, lease);
    } else {
      StepInv(w, events[0], max);
      StepKeepsSuperseded(w, events[0], max, lease);
      FencedForever(Step(w, events[0], max).0, events[1..], max, lease, e);
    }
  }

  /** A job that is claimed again, or reaches a terminal state, supersedes every lease granted on it before. */
  lemma ReclaimOrEndSupersedes(w: World, e: Event, max: MaxAttempts, lease: Lease)
    requires Inv(w, max) && Fresh(w, e)
    requires lease.token in w.granted && w.granted[lease.token].lease.jobId == lease.jobId
    requires var (w', response) := Step(w, e, max);
             || (response.Granted? && response.lease.jobId == lease.jobId)
             || (lease.jobId in w'.db.jobs && w'.db.jobs[lease.jobId].state != Leased)
    ensures Superseded(Step(w, e, max).0, lease)
  {
    assert GrantOk(w, lease.token, w.granted[lease.token]);
    StepMovesRow(w, e, max, lease.jobId);
    StepKeepsRowOk(w, e, max, lease.jobId);
    GrantsGrow(w, e, max);
    if Step(w, e, max).1.Granted? { GrantIs(w, e, max); }
  }

  // ---------------------------------------------------------------- terminal rows and accepted results

  lemma TerminalStays(w: World, e: Event, max: MaxAttempts, id: JobId)
    requires Inv(w, max) && Fresh(w, e) && id in w.db.jobs && Terminal(w.db.jobs[id])
    ensures id in Step(w, e, max).0.db.jobs && Step(w, e, max).0.db.jobs[id] == w.db.jobs[id]
  {
    StepMovesRow(w, e, max, id);
  }

  /** A result for job `id` is accepted: a commit or a completion answered true. */
  ghost predicate Accepts(w: World, e: Event, max: MaxAttempts, id: JobId) {
    (e.Commit? || e.Complete?) && e.lease.jobId == id && Step(w, e, max).1 == Answer(true)
  }

  ghost function Accepted(w: World, events: seq<Event>, max: MaxAttempts, id: JobId): nat
    decreases |events|
  {
    if events == [] then 0
    else (if Accepts(w, events[0], max, id) then 1 else 0) + Accepted(Step(w, events[0], max).0, events[1..], max, id)
  }

  lemma {:induction false} NoneAcceptedOnceTerminal(w: World, events: seq<Event>, max: MaxAttempts, id: JobId)
    requires Inv(w, max) && Possible(w, events, max) && id in w.db.jobs && Terminal(w.db.jobs[id])
    ensures Accepted(w, events, max, id) == 0
    ensures var w' := After(w, events, max); id in w'.db.jobs && w'.db.jobs[id] == w.db.jobs[id]
    decreases |events|
  {
    if events != [] {
      StepInv(w, events[0], max);
      TerminalStays(w, events[0], max, id);
      NoneAcceptedOnceTerminal(Step(w, events[0], max).0, events[1..], max, id);
    }
  }

  lemma {:induction false} AtMostOneResult(w: World, events: seq<Event>, max: MaxAttempts, id: JobId)
    requires Inv(w, max) && Possible(w, events, max)
    ensures Accepted(w, events, max, id) <= 1
    decreases |events|
  {
    if events != [] {
      var w' := Step(w, events[0], max).0;
      StepInv(w, events[0], max);
      if Accepts(w, events[0], max, id) {
        NoneAcceptedOnceTerminal(w', events[1..], max, id);
      } else {
        AtMostOneResult(w', events[1..], max, id);
      }
    }
  }

  /** With the run row written only by commits and by the saving of queued runs, the committed row is final. */
  lemma {:induction false} CommittedRunStays(w: World, events: seq<Event>, max: MaxAttempts, id: JobId)
    requires Inv(w, max) && Possible(w, events, max)
    requires id in w.db.jobs && Terminal(w.db.jobs[id]) && w.db.jobs[id].runId in w.db.runs
    ensures var w' := After(w, events, max); var runId := w.db.jobs[id].runId;
            runId in w'.db.runs && w'.db.runs[runId] == w.db.runs[runId]
    decreases |events|
  {
    if events != [] {
      var e := events[0];
      StepInv(w, e, max);
      TerminalStays(w, e, max, id);
      if e.SaveQueued? && e.run.id == w.db.jobs[id].runId {
        JobOfRunIs(w.db.jobs, e.run.id, id);
      }
      CommittedRunStays(Step(w, e, max).0, events[1..], max, id);
    }
  }

  /** The run row of an accepted commit is the one that the committing holder sent, at the end of every run. */
  lemma AcceptedResultStands(w: World, e: Event, events: seq<Event>, max: MaxAttempts)
    requires Inv(w, max) && Possible(w, [e] + events, max)
    requires e.Commit? && Step(w, e, max).1 == Answer(true)
    ensures var w' := After(w, [e] + events, max);
            && e.run.id in w'.db.runs && w'.db.runs[e.run.id] == e.run
            && e.lease.jobId in w'.db.jobs
            && w'.db.jobs[e.lease.jobId].runId == e.run.id
            && (w'.db.jobs[e.lease.jobId].state == Completed <==> e.run.status == RunCompleted)
            && Terminal(w'.db.jobs[e.lease.jobId])
            && Accepted(w, [e] + events, max, e.lease.jobId) == 1
  {
    assert ([e] + events)[0] == e && ([e] + events)[1..] == events;
    var w' := Step(w, e, max).0;
    StepInv(w, e, max);
    CommittedRunStays(w', events, max, e.lease.jobId);
    NoneAcceptedOnceTerminal(w', events, max, e.lease.jobId);
  }
}

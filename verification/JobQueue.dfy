/**
  The persistent run-job queue: one row per job, opaque lease tokens, expiries and an attempt limit.

  Each database transaction is one function on `Db`; `Store` is the object whose methods run them.  Times
  are integers; a second is `SECOND` of them.  `now` is whatever the caller's clock says.
 */
module JobQueue {
  import opened Common

  const SECOND := 1_000_000

  type JobId = nat
  type RunId = nat
  type Token = nat

  type MaxAttempts = n: nat | 1 <= n <= 100 witness 1

  datatype JobState = Queued | Leased | Completed | Failed

  datatype Job = Job(runId: RunId, state: JobState, availableAt: int, createdAt: int, attempts: nat,
                     owner: Option<string>, token: Option<Token>, expiresAt: Option<int>,
                     failureAlias: Option<string>)

  datatype RunStatus = Running | RunCompleted | RunFailed

  /** A run row; `content` stands for the columns and child rows that the queue never looks at. */
  datatype Run = Run(id: RunId, status: RunStatus, endedAt: Option<int>, failureAlias: Option<string>, content: int)

  datatype Lease = Lease(jobId: JobId, runId: RunId, token: Token, attempt: nat, expiresAt: int, finalAttempt: bool)

  datatype Db = Db(jobs: map<JobId, Job>, runs: map<RunId, Run>)

  // ---------------------------------------------------------------- argument checks

  predicate ValidAlias(alias: string) {
    && 1 <= |alias| <= 128
    && forall c :: c in alias ==> 'a' <= c <= 'z' || 'A' <= c <= 'Z' || '0' <= c <= '9' || c in "-_."
  }

  predicate ValidLeaseSeconds(seconds: int) {
    5 <= seconds <= 300
  }

  // ---------------------------------------------------------------- row predicates

  predicate Terminal(job: Job) {
    job.state in {Completed, Failed}
  }

  /** The claimable rows.  A comparison with a NULL expiry is never true. */
  predicate Claimable(job: Job, now: int, max: MaxAttempts) {
    && job.attempts < max
    && ((job.state == Queued && job.availableAt <= now)
        || (job.state == Leased && job.expiresAt.Some? && job.expiresAt.value <= now))
  }

  predicate Exhausted(job: Job, now: int, max: MaxAttempts) {
    && job.attempts >= max
    && (job.state == Queued || (job.state == Leased && job.expiresAt.Some? && job.expiresAt.value <= now))
  }

  /** The fencing condition under which a holder may act. */
  predicate Active(jobs: map<JobId, Job>, lease: Lease, worker: string, now: int) {
    && lease.jobId in jobs
    && var job := jobs[lease.jobId];
       && job.state == Leased
       && job.owner == Some(worker)
       && job.token == Some(lease.token)
       && job.expiresAt.Some? && job.expiresAt.value > now
  }

  function Released(job: Job): Job {
    job.(owner := None, token := None, expiresAt := None)
  }

  // ---------------------------------------------------------------- the claim order

  /** `ORDER BY available_at, created_at, id` */
  predicate Before(jobs: map<JobId, Job>, a: JobId, b: JobId)
    requires a in jobs && b in jobs
  {
    var x, y := jobs[a], jobs[b];
    || x.availableAt < y.availableAt
    || (x.availableAt == y.availableAt && x.createdAt < y.createdAt)
    || (x.availableAt == y.availableAt && x.createdAt == y.createdAt && a < b)
  }

  /** `job` is the first claimable row that no other transaction has locked. */
  ghost predicate IsPick(jobs: map<JobId, Job>, hidden: set<JobId>, now: int, max: MaxAttempts, job: JobId) {
    && job in jobs && job !in hidden && Claimable(jobs[job], now, max)
    && forall other :: other in jobs && other !in hidden && other != job && Claimable(jobs[other], now, max) ==>
         Before(jobs, job, other)
  }

  ghost function Pick(jobs: map<JobId, Job>, hidden: set<JobId>, now: int, max: MaxAttempts): Option<JobId> {
    if exists job :: IsPick(jobs, hidden, now, max, job) then
      var job :| IsPick(jobs, hidden, now, max, job);
      Some(job)
    else
      None
  }

  lemma PickIs(jobs: map<JobId, Job>, hidden: set<JobId>, now: int, max: MaxAttempts, job: JobId)
    requires IsPick(jobs, hidden, now, max, job)
    ensures Pick(jobs, hidden, now, max) == Some(job)
  {
    var picked := Pick(jobs, hidden, now, max).value;
    assert IsPick(jobs, hidden, now, max, picked);
  }

  /** A claim finds nothing only when every claimable row is locked. */
  lemma NoPick(jobs: map<JobId, Job>, hidden: set<JobId>, now: int, max: MaxAttempts)
    requires forall job :: job in jobs && job !in hidden ==> !Claimable(jobs[job], now, max)
    ensures Pick(jobs, hidden, now, max) == None
  {}

  // ---------------------------------------------------------------- transactions

  ghost function JobOfRun(jobs: map<JobId, Job>, runId: RunId): Option<JobId> {
    if exists job :: job in jobs && jobs[job].runId == runId then
      var job :| job in jobs && jobs[job].runId == runId;
      Some(job)
    else
      None
  }

  /** The unique constraint on `run_id`. */
  ghost predicate OneJobPerRun(jobs: map<JobId, Job>) {
    forall a, b :: a in jobs && b in jobs && jobs[a].runId == jobs[b].runId ==> a == b
  }

  lemma JobOfRunIs(jobs: map<JobId, Job>, runId: RunId, job: JobId)
    requires OneJobPerRun(jobs) && job in jobs && jobs[job].runId == runId
    ensures JobOfRun(jobs, runId) == Some(job)
  {}

  function NewJob(runId: RunId, now: int, createdAt: int): Job {
    Job(runId, Queued, now, createdAt, 0, None, None, None, None)
  }

  ghost function Enqueued(db: Db, runId: RunId, newId: JobId, now: int, createdAt: int): (Db, JobId) {
    match JobOfRun(db.jobs, runId)
    case Some(job) => (db, job)
    case None => (db.(jobs := db.jobs[newId := NewJob(runId, now, createdAt)]), newId)
  }

  /** Enqueueing a run together with its row; the row is written only if there is no job for it yet. */
  ghost function QueuedRunSaved(db: Db, run: Run, newId: JobId, now: int, createdAt: int): (Db, JobId) {
    match JobOfRun(db.jobs, run.id)
    case Some(job) => (db, job)
    case None => (Db(db.jobs[newId := NewJob(run.id, now, createdAt)], db.runs[run.id := run]), newId)
  }

  /** Rows that are out of attempts fail when a claim, by anyone, finds them idle or expired. */
  function Swept(jobs: map<JobId, Job>, now: int, max: MaxAttempts): map<JobId, Job> {
    map id | id in jobs ::
      if Exhausted(jobs[id], now, max) then
        Released(jobs[id]).(state := Failed, failureAlias := Some("attempt-limit-exhausted"))
      else
        jobs[id]
  }

  function Taken(job: Job, worker: string, token: Token, expiresAt: int): Job {
    job.(state := Leased, owner := Some(worker), token := Some(token), expiresAt := Some(expiresAt),
         attempts := job.attempts + 1, failureAlias := None)
  }

  ghost function Claimed(db: Db, worker: string, seconds: int, now: int, hidden: set<JobId>, token: Token,
                         max: MaxAttempts): (Db, Option<Lease>)
  {
    var swept := Swept(db.jobs, now, max);
    match Pick(swept, hidden, now, max)
    case None => (db.(jobs := swept), None)
    case Some(id) =>
      var expiresAt := now + seconds * SECOND;
      var attempt := swept[id].attempts + 1;
      (db.(jobs := swept[id := Taken(swept[id], worker, token, expiresAt)]),
       Some(Lease(id, swept[id].runId, token, attempt, expiresAt, attempt >= max)))
  }

  function Extended(db: Db, lease: Lease, worker: string, seconds: int, now: int): (Db, bool) {
    if !Active(db.jobs, lease, worker, now) then (db, false)
    else
      var job := db.jobs[lease.jobId];
      (db.(jobs := db.jobs[lease.jobId := job.(expiresAt := Some(now + seconds * SECOND))]), true)
  }

  function Finished(db: Db, lease: Lease, worker: string, now: int): (Db, bool) {
    if !Active(db.jobs, lease, worker, now) then (db, false)
    else
      var job := Released(db.jobs[lease.jobId]).(state := Completed, failureAlias := None);
      (db.(jobs := db.jobs[lease.jobId := job]), true)
  }

  function GivenUp(db: Db, lease: Lease, worker: string, alias: string, retryable: bool, delay: int, now: int,
                   max: MaxAttempts): (Db, bool)
  {
    if !Active(db.jobs, lease, worker, now) then (db, false)
    else
      var job := db.jobs[lease.jobId];
      var state := if retryable && job.attempts < max then Queued else Failed;
      (db.(jobs := db.jobs[lease.jobId :=
         Released(job).(state := state, availableAt := now + delay * SECOND, failureAlias := Some(alias))]), true)
  }

  /** The fenced commit: the run row and the job row change in one transaction, or neither does. */
  function Committed(db: Db, run: Run, lease: Lease, worker: string, now: int): (Db, bool) {
    if lease.runId != run.id || !Active(db.jobs, lease, worker, now) || db.jobs[lease.jobId].runId != run.id then
      (db, false)
    else
      var job := Released(db.jobs[lease.jobId]);
      var job' := if run.status == RunCompleted then job.(state := Completed, failureAlias := None)
                  else job.(state := Failed, failureAlias := run.failureAlias);
      (Db(db.jobs[lease.jobId := job'], db.runs[run.id := run]), true)
  }

  // ---------------------------------------------------------------- the object

  class Store {
    const maxAttempts: MaxAttempts
    var jobs: map<JobId, Job>
    var runs: map<RunId, Run>

    ghost function Abstract(): Db
      reads this
    {
      Db(jobs, runs)
    }

    ghost predicate Valid()
      reads this
    {
      OneJobPerRun(jobs)
    }

    constructor (maxAttempts: MaxAttempts)
      ensures this.maxAttempts == maxAttempts && Abstract() == Db(map[], map[]) && Valid()
    {
      this.maxAttempts := maxAttempts;
      jobs, runs := map[], map[];
    }

    /** `newId` and the tokens below are the fresh UUIDs that the source draws. */
    method Enqueue(runId: RunId, newId: JobId, now: int, createdAt: int) returns (job: JobId)
      requires Valid() && newId !in jobs
      modifies this
      ensures Valid()
      ensures (Abstract(), job) == Enqueued(old(Abstract()), runId, newId, now, createdAt)
    {
      if existing :| existing in jobs && jobs[existing].runId == runId {
        JobOfRunIs(jobs, runId, existing);
        return existing;
      }
      jobs := jobs[newId := NewJob(runId, now, createdAt)];
      return newId;
    }

    method SaveQueuedRun(run: Run, newId: JobId, now: int, createdAt: int) returns (result: Result<JobId>)
      requires Valid() && newId !in jobs
      modifies this
      ensures Valid()
      ensures run.status != Running || run.endedAt.Some? ==>
        result == Err("queued-run-not-running") && Abstract() == old(Abstract())
      ensures run.status == Running && run.endedAt.None? ==>
        result.Ok? && (Abstract(), result.value) == QueuedRunSaved(old(Abstract()), run, newId, now, createdAt)
    {
      if run.status != Running || run.endedAt.Some? {
        return Err("queued-run-not-running");
      }
      if existing :| existing in jobs && jobs[existing].runId == run.id {
        JobOfRunIs(jobs, run.id, existing);
        return Ok(existing);
      }
      runs := runs[run.id := run];
      jobs := jobs[newId := NewJob(run.id, now, createdAt)];
      return Ok(newId);
    }

    /** The database's answer to the claim query: the least claimable row among those not locked. */
    method SelectClaimable(hidden: set<JobId>, now: int) returns (job: Option<JobId>)
      ensures job == Pick(jobs, hidden, now, maxAttempts)
    {
      job := None;
      var left := jobs.Keys;
      while left != {}
        invariant left <= jobs.Keys
        invariant job.None? ==> forall id :: id in jobs.Keys - left && id !in hidden ==> !Claimable(jobs[id], now, maxAttempts)
        invariant job.Some? ==>
          && job.value in jobs.Keys - left && job.value !in hidden && Claimable(jobs[job.value], now, maxAttempts)
          && forall id :: id in jobs.Keys - left && id !in hidden && id != job.value && Claimable(jobs[id], now, maxAttempts)
               ==> Before(jobs, job.value, id)
      {
        var id :| id in left;
        if id !in hidden && Claimable(jobs[id], now, maxAttempts) && (job.None? || Before(jobs, id, job.value)) {
          job := Some(id);
        }
        left := left - {id};
      }
      if job.Some? {
        PickIs(jobs, hidden, now, maxAttempts, job.value);
      } else {
        NoPick(jobs, hidden, now, maxAttempts);
      }
    }

    method Claim(worker: string, seconds: int, now: int, hidden: set<JobId>, token: Token)
        returns (result: Result<Option<Lease>>)
      requires Valid()
      modifies this
      ensures Valid()
      ensures !ValidAlias(worker) ==> result == Err("run-job-worker-id-invalid")
      ensures ValidAlias(worker) && !ValidLeaseSeconds(seconds) ==> result == Err("run-job-lease-seconds-invalid")
      ensures result.Err? ==> Abstract() == old(Abstract())
      ensures ValidAlias(worker) && ValidLeaseSeconds(seconds) ==>
        result.Ok? && (Abstract(), result.value) == Claimed(old(Abstract()), worker, seconds, now, hidden, token, maxAttempts)
    {
      if !ValidAlias(worker) {
        return Err("run-job-worker-id-invalid");
      }
      if !ValidLeaseSeconds(seconds) {
        return Err("run-job-lease-seconds-invalid");
      }
      var expiresAt := now + seconds * SECOND;
      jobs := Swept(jobs, now, maxAttempts);
      var row := SelectClaimable(hidden, now);
      if row.None? {
        return Ok(None);
      }
      var id := row.value;
      jobs := jobs[id := Taken(jobs[id], worker, token, expiresAt)];
      var job := jobs[id];
      return Ok(Some(Lease(id, job.runId, token, job.attempts, expiresAt, job.attempts >= maxAttempts)));
    }

    method Heartbeat(lease: Lease, worker: string, seconds: int, now: int) returns (result: Result<bool>)
      requires Valid()
      modifies this
      ensures Valid()
      ensures !ValidAlias(worker) ==> result == Err("run-job-worker-id-invalid")
      ensures ValidAlias(worker) && !ValidLeaseSeconds(seconds) ==> result == Err("run-job-lease-seconds-invalid")
      ensures result.Err? ==> Abstract() == old(Abstract())
      ensures ValidAlias(worker) && ValidLeaseSeconds(seconds) ==>
        result.Ok? && (Abstract(), result.value) == Extended(old(Abstract()), lease, worker, seconds, now)
    {
      if !ValidAlias(worker) {
        return Err("run-job-worker-id-invalid");
      }
      if !ValidLeaseSeconds(seconds) {
        return Err("run-job-lease-seconds-invalid");
      }
      if !Active(jobs, lease, worker, now) {
        return Ok(false);
      }
      jobs := jobs[lease.jobId := jobs[lease.jobId].(expiresAt := Some(now + seconds * SECOND))];
      return Ok(true);
    }

    method Complete(lease: Lease, worker: string, now: int) returns (result: Result<bool>)
      requires Valid()
      modifies this
      ensures Valid()
      ensures !ValidAlias(worker) ==> result == Err("run-job-worker-id-invalid") && Abstract() == old(Abstract())
      ensures ValidAlias(worker) ==>
        result.Ok? && (Abstract(), result.value) == Finished(old(Abstract()), lease, worker, now)
    {
      if !ValidAlias(worker) {
        return Err("run-job-worker-id-invalid");
      }
      if !Active(jobs, lease, worker, now) {
        return Ok(false);
      }
      jobs := jobs[lease.jobId := Released(jobs[lease.jobId]).(state := Completed, failureAlias := None)];
      return Ok(true);
    }

    method Fail(lease: Lease, worker: string, alias: string, retryable: bool, delay: int, now: int)
        returns (result: Result<bool>)
      requires Valid()
      modifies this
      ensures Valid()
      ensures !ValidAlias(worker) ==> result == Err("run-job-worker-id-invalid")
      ensures ValidAlias(worker) && !ValidAlias(alias) ==> result == Err("run-job-failure-alias-invalid")
      ensures ValidAlias(worker) && ValidAlias(alias) && !(0 <= delay <= 3600) ==> result == Err("run-job-retry-delay-invalid")
      ensures result.Err? ==> Abstract() == old(Abstract())
      ensures ValidAlias(worker) && ValidAlias(alias) && 0 <= delay <= 3600 ==>
        result.Ok? && (Abstract(), result.value)
          == GivenUp(old(Abstract()), lease, worker, alias, retryable, delay, now, maxAttempts)
    {
      if !ValidAlias(worker) {
        return Err("run-job-worker-id-invalid");
      }
      if !ValidAlias(alias) {
        return Err("run-job-failure-alias-invalid");
      }
      if !(0 <= delay <= 3600) {
        return Err("run-job-retry-delay-invalid");
      }
      if !Active(jobs, lease, worker, now) {
        return Ok(false);
      }
      var job := jobs[lease.jobId];
      var retry := retryable && job.attempts < maxAttempts;
      jobs := jobs[lease.jobId := Released(job).(state := if retry then Queued else Failed,
                                                 availableAt := now + delay * SECOND,
                                                 failureAlias := Some(alias))];
      return Ok(true);
    }

    method CommitLeasedResult(run: Run, lease: Lease, worker: string, now: int) returns (result: Result<bool>)
      requires Valid()
      modifies this
      ensures Valid()
      ensures run.status == Running || run.endedAt.None? ==>
        result == Err("leased-run-result-not-terminal") && Abstract() == old(Abstract())
      ensures run.status != Running && run.endedAt.Some? ==>
        result.Ok? && (Abstract(), result.value) == Committed(old(Abstract()), run, lease, worker, now)
    {
      if run.status == Running || run.endedAt.None? {
        return Err("leased-run-result-not-terminal");
      }
      if lease.runId != run.id || !Active(jobs, lease, worker, now) || jobs[lease.jobId].runId != run.id {
        return Ok(false);
      }
      runs := runs[run.id := run];
      var job := Released(jobs[lease.jobId]);
      jobs := jobs[lease.jobId := if run.status == RunCompleted then job.(state := Completed, failureAlias := None)
                                  else job.(state := Failed, failureAlias := run.failureAlias)];
      return Ok(true);
    }
  }
}

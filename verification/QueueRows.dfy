/**
  What each queue transaction does to the rows, said of their columns one by one.  The transactions are stated as
  functions in `JobQueue`; here is what those functions come to for every row of the table.
 */
module QueueRows {
  import opened Common
  import opened JobQueue

  /** Out of attempts, and either waiting or held under a lease that is over. */
  predicate OutOfAttempts(job: Job, now: int, max: MaxAttempts) {
    job.attempts >= max && (job.state == Queued || HeldUntil(job, now))
  }

  /** Leased, with an expiry that has passed. */
  predicate HeldUntil(job: Job, now: int) {
    job.state == Leased && job.expiresAt.Some? && job.expiresAt.value <= now
  }

  /** Attempts left, and either due or held under a lease that is over. */
  predicate Due(job: Job, now: int, max: MaxAttempts) {
    job.attempts < max && ((job.state == Queued && job.availableAt <= now) || HeldUntil(job, now))
  }

  /** Nobody holds the row. */
  predicate Unheld(job: Job) {
    job.owner.None? && job.token.None? && job.expiresAt.None?
  }

  /** The columns that no transaction but the first touches, and the attempt counter. */
  predicate SameJob(before: Job, after: Job) {
    before.runId == after.runId && before.createdAt == after.createdAt && before.attempts == after.attempts
  }

  /** Every row that is out of attempts fails at the next claim, whoever makes it and whatever it finds. */
  lemma ClaimSweeps(db: Db, worker: string, seconds: int, now: int, hidden: set<JobId>, token: Token, max: MaxAttempts)
    requires ValidLeaseSeconds(seconds)
    ensures var (after, lease) := Claimed(db, worker, seconds, now, hidden, token, max);
            && after.runs == db.runs && after.jobs.Keys == db.jobs.Keys
            && (forall id :: id in db.jobs && OutOfAttempts(db.jobs[id], now, max) ==>
                  var job := after.jobs[id];
                  && job.state == Failed && job.failureAlias == Some("attempt-limit-exhausted") && Unheld(job)
                  && SameJob(db.jobs[id], job) && job.availableAt == db.jobs[id].availableAt)
            && (forall id :: id in after.jobs ==> !OutOfAttempts(after.jobs[id], now, max))
            && (forall id :: id in db.jobs && !OutOfAttempts(db.jobs[id], now, max) ==>
                  after.jobs[id] == db.jobs[id] || (lease.Some? && lease.value.jobId == id))
  {
    var (after, lease) := Claimed(db, worker, seconds, now, hidden, token, max);
    if lease.Some? {
      assert after.jobs[lease.value.jobId].expiresAt == Some(now + seconds * SECOND);
    }
  }

  /**
    The row picked is due and not locked, and of those it is the one available first, then created first, then of
    the least id.  It is leased to the worker under the token for the given time, which is one more attempt.
   */
  lemma ClaimTakesTheFirst(db: Db, worker: string, seconds: int, now: int, hidden: set<JobId>, token: Token,
                           max: MaxAttempts)
    ensures var (after, lease) := Claimed(db, worker, seconds, now, hidden, token, max);
            match lease
            case None => forall id :: id in db.jobs && id !in hidden ==> !Due(db.jobs[id], now, max)
            case Some(grant) =>
              && grant.jobId in db.jobs && grant.jobId !in hidden
              && var job, job' := db.jobs[grant.jobId], after.jobs[grant.jobId];
                 && Due(job, now, max)
                 && job' == Job(job.runId, Leased, job.availableAt, job.createdAt, job.attempts + 1, Some(worker),
                                Some(token), Some(now + seconds * 1_000_000), None)
                 && grant == Lease(grant.jobId, job.runId, token, job.attempts + 1, now + seconds * 1_000_000,
                                   job.attempts + 1 == max)
                 && forall id :: id in db.jobs && id !in hidden && id != grant.jobId && Due(db.jobs[id], now, max) ==>
                      var other := db.jobs[id];
                      && job.availableAt <= other.availableAt
                      && (job.availableAt == other.availableAt ==> job.createdAt <= other.createdAt)
                      && (job.availableAt == other.availableAt && job.createdAt == other.createdAt ==> grant.jobId < id)
  {
    var swept := Swept(db.jobs, now, max);
    forall id | id in db.jobs
      ensures Due(db.jobs[id], now, max) <==> Claimable(swept[id], now, max)
      ensures Due(db.jobs[id], now, max) ==> swept[id] == db.jobs[id]
    {}
    if exists id :: IsPick(swept, hidden, now, max, id) {
      var id := Pick(swept, hidden, now, max).value;
      assert IsPick(swept, hidden, now, max, id);
    } else {
      forall id | id in db.jobs && id !in hidden ensures !Due(db.jobs[id], now, max) {
        if Claimable(swept[id], now, max) { SomeIsPicked(swept, hidden, now, max, id); }
      }
    }
  }

  /** When some row can be claimed, one is first. */
  lemma SomeIsPicked(jobs: map<JobId, Job>, hidden: set<JobId>, now: int, max: MaxAttempts, some: JobId)
    requires some in jobs && some !in hidden && Claimable(jobs[some], now, max)
    ensures exists id :: IsPick(jobs, hidden, now, max, id)
  {
    var due := set id | id in jobs && id !in hidden && Claimable(jobs[id], now, max);
    assert some in due;
    var first := FirstOf(jobs, due);
    forall other | other in jobs && other !in hidden && other != first && Claimable(jobs[other], now, max)
      ensures Before(jobs, first, other)
    {
      assert other in due;
    }
    assert IsPick(jobs, hidden, now, max, first);
  }

  /** A set of rows that is not empty has a first one in the claim order. */
  lemma {:induction false} FirstOf(jobs: map<JobId, Job>, rows: set<JobId>) returns (first: JobId)
    requires rows != {} && rows <= jobs.Keys
    ensures first in rows
    ensures forall id :: id in rows && id != first ==> Before(jobs, first, id)
    decreases |rows|
  {
    var some :| some in rows;
    var rest := rows - {some};
    first := some;
    if rest != {} {
      var next := FirstOf(jobs, rest);
      if Before(jobs, next, some) { first := next; }
    }
    forall id | id in rows && id != first ensures Before(jobs, first, id) {
      assert id == some || id in rest;
    }
  }

  /** A holder is one whose worker id and token are on the leased row and whose expiry is still to come. */
  predicate Holds(db: Db, lease: Lease, worker: string, now: int) {
    && lease.jobId in db.jobs
    && var job := db.jobs[lease.jobId];
       && job.state == Leased && job.owner == Some(worker) && job.token == Some(lease.token)
       && job.expiresAt.Some? && now < job.expiresAt.value
  }

  /** Nothing but the row of that id differs. */
  predicate OnlyRow(before: Db, after: Db, id: JobId) {
    && id in before.jobs && after.jobs.Keys == before.jobs.Keys
    && forall other :: other in before.jobs && other != id ==> after.jobs[other] == before.jobs[other]
  }

  lemma HeartbeatMovesExpiry(db: Db, lease: Lease, worker: string, seconds: int, now: int)
    ensures var (after, ok) := Extended(db, lease, worker, seconds, now);
            && ok == Holds(db, lease, worker, now)
            && (!ok ==> after == db)
            && (ok ==>
                  && OnlyRow(db, after, lease.jobId) && after.runs == db.runs
                  && var job, job' := db.jobs[lease.jobId], after.jobs[lease.jobId];
                     && job'.expiresAt == Some(now + seconds * 1_000_000) && job'.state == Leased
                     && job'.owner == job.owner && job'.token == job.token && job'.failureAlias == job.failureAlias
                     && SameJob(job, job') && job'.availableAt == job.availableAt)
  {}

  lemma CompleteEndsTheLease(db: Db, lease: Lease, worker: string, now: int)
    ensures var (after, ok) := Finished(db, lease, worker, now);
            && ok == Holds(db, lease, worker, now)
            && (!ok ==> after == db)
            && (ok ==>
                  && OnlyRow(db, after, lease.jobId) && after.runs == db.runs
                  && var job, job' := db.jobs[lease.jobId], after.jobs[lease.jobId];
                     && job'.state == Completed && job'.failureAlias.None? && Unheld(job')
                     && SameJob(job, job') && job'.availableAt == job.availableAt)
  {}

  /** A retry waits for its delay; a job that may not be retried, or not any more, has failed for good. */
  lemma FailRetriesOrEnds(db: Db, lease: Lease, worker: string, alias: string, retryable: bool, delay: int, now: int,
                          max: MaxAttempts)
    ensures var (after, ok) := GivenUp(db, lease, worker, alias, retryable, delay, now, max);
            && ok == Holds(db, lease, worker, now)
            && (!ok ==> after == db)
            && (ok ==>
                  && OnlyRow(db, after, lease.jobId) && after.runs == db.runs
                  && var job, job' := db.jobs[lease.jobId], after.jobs[lease.jobId];
                     && job'.state == (if retryable && job.attempts < max then Queued else Failed)
                     && job'.failureAlias == Some(alias) && job'.availableAt == now + delay * 1_000_000
                     && Unheld(job') && SameJob(job, job'))
  {}

  /** So a job put back is due exactly from the end of its delay on. */
  lemma RetryIsDueAfterItsDelay(db: Db, lease: Lease, worker: string, alias: string, delay: int, now: int, later: int,
                                max: MaxAttempts)
    requires Holds(db, lease, worker, now) && db.jobs[lease.jobId].attempts < max
    ensures var after := GivenUp(db, lease, worker, alias, true, delay, now, max).0;
            Due(after.jobs[lease.jobId], later, max) <==> later >= now + delay * 1_000_000
  {}

  lemma CommitWritesBoth(db: Db, run: Run, lease: Lease, worker: string, now: int)
    ensures var (after, ok) := Committed(db, run, lease, worker, now);
            && ok == (Holds(db, lease, worker, now) && lease.runId == run.id == db.jobs[lease.jobId].runId)
            && (!ok ==> after == db)
            && (ok ==>
                  && OnlyRow(db, after, lease.jobId) && after.runs == db.runs[run.id := run]
                  && var job, job' := db.jobs[lease.jobId], after.jobs[lease.jobId];
                     && job'.state == (if run.status == RunCompleted then Completed else Failed)
                     && job'.failureAlias == (if run.status == RunCompleted then None else run.failureAlias)
                     && Unheld(job') && SameJob(job, job') && job'.availableAt == job.availableAt)
  {}

  /** A new row is due at once, and its order is that of its creation. */
  lemma EnqueueAddsARow(db: Db, runId: RunId, newId: JobId, now: int, createdAt: int, max: MaxAttempts)
    requires newId !in db.jobs
    ensures var (after, job) := Enqueued(db, runId, newId, now, createdAt);
            && job in after.jobs && after.jobs[job].runId == runId && after.runs == db.runs
            && (job in db.jobs ==> after == db)
            && (job !in db.jobs ==>
                  && job == newId && after.jobs.Keys == db.jobs.Keys + {newId} && OnlyNew(db, after, newId)
                  && after.jobs[newId] == Job(runId, Queued, now, createdAt, 0, None, None, None, None))
            && (job in db.jobs <==> exists id :: id in db.jobs && db.jobs[id].runId == runId)
  {}

  predicate OnlyNew(before: Db, after: Db, newId: JobId) {
    before.jobs.Keys <= after.jobs.Keys
    && forall id :: id in before.jobs && id != newId ==> after.jobs[id] == before.jobs[id]
  }

  lemma SaveAddsBothRows(db: Db, run: Run, newId: JobId, now: int, createdAt: int)
    requires newId !in db.jobs
    ensures var (after, job) := QueuedRunSaved(db, run, newId, now, createdAt);
            && job in after.jobs && after.jobs[job].runId == run.id
            && (job in db.jobs ==> after == db)
            && (job !in db.jobs ==>
                  && job == newId && after.jobs.Keys == db.jobs.Keys + {newId} && OnlyNew(db, after, newId)
                  && after.jobs[newId] == Job(run.id, Queued, now, createdAt, 0, None, None, None, None)
                  && after.runs == db.runs[run.id := run])
            && (job in db.jobs <==> exists id :: id in db.jobs && db.jobs[id].runId == run.id)
  {}

  /** Worker ids and aliases are 1 to 128 letters, digits, dashes, underscores and dots. */
  predicate AliasCharacter(c: char) {
    || 'a' <= c <= 'z' || 'A' <= c <= 'Z' || '0' <= c <= '9' || c == '-' || c == '_' || c == '.'
  }

  lemma ArgumentLimits(alias: string, seconds: int)
    ensures ValidAlias(alias) <==> 0 < |alias| < 129 && forall i :: 0 <= i < |alias| ==> AliasCharacter(alias[i])
    ensures ValidLeaseSeconds(seconds) <==> 4 < seconds < 301
  {
    forall c ensures c in "-_." <==> c == '-' || c == '_' || c == '.' {
      assert "-_."[0] == '-' && "-_."[1] == '_' && "-_."[2] == '.';
    }
    forall i | 0 <= i < |alias| ensures alias[i] in alias {}
    if forall c :: c in alias ==> AliasCharacter(c) {}
  }
}

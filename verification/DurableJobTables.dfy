/** Durable jobs and their completion outbox: the rows, and the guarded statements of the repository. */
module DurableJobTables {
  import opened Option

  type Id = nat
  type Token = nat

  datatype Outcome =
    | CompletedWith(output: string)
    | FailedWith(error: string, code: string)
    | CancelledWith(reason: string)

  datatype Status = Queued | Running | Completed | Failed | Cancelled

  /** Token and expiry are set and cleared together; only a running job has them. */
  datatype Lease = Lease(token: Token, expiresAt: int)

  datatype Job = Job(
    status: Status, attempt: nat, maxAttempts: nat, nextAttemptAt: int, lease: Option<Lease>,
    finishedToken: Option<Token>, outcome: Option<Outcome>, hasInbox: bool)

  /** One row per job at most: the idempotency key names the job. */
  datatype Completion = Completion(
    outcome: Outcome, attempt: nat, nextAttemptAt: int, lease: Option<Lease>, delivered: bool)

  datatype MutationResult = Applied | Replayed | NotFound | LeaseLost | Conflict

  const OUTBOX_ATTEMPTS: nat := 10
  const EXPIRED: Outcome := FailedWith("Durable job lease expired after its final attempt", "LEASE_EXPIRED")

  function StatusOf(o: Outcome): Status {
    match o
    case CompletedWith(_) => Completed
    case FailedWith(_, _) => Failed
    case CancelledWith(_) => Cancelled
  }

  /** The lease under `token` has not run out at `now`. */
  predicate Holds(lease: Option<Lease>, token: Token, now: int) {
    lease.Some? && lease.value.token == token && lease.value.expiresAt > now
  }

  predicate RunOut(lease: Option<Lease>, now: int) {
    lease.Some? && lease.value.expiresAt <= now
  }

  predicate Claimable(j: Job, now: int) {
    && j.nextAttemptAt <= now && j.attempt < j.maxAttempts
    && (j.status == Queued || (j.status == Running && RunOut(j.lease, now)))
  }

  predicate Exhausted(j: Job, now: int) {
    j.status == Running && j.attempt >= j.maxAttempts && RunOut(j.lease, now)
  }

  function ClaimedJob(j: Job, token: Token, now: int, leaseMs: int): Job {
    j.(status := Running, attempt := j.attempt + 1, lease := Some(Lease(token, now + leaseMs)))
  }

  /** The job with its outcome recorded and its lease cleared. */
  function Ended(j: Job, o: Outcome, finished: Option<Token>): Job {
    j.(status := StatusOf(o), outcome := Some(o), finishedToken := finished, lease := None)
  }

  function HeldToken(j: Job): Option<Token> {
    if j.lease.Some? then Some(j.lease.value.token) else None
  }

  function FinishResult(jobs: map<Id, Job>, id: Id, token: Token, o: Outcome, now: int): MutationResult {
    if id !in jobs then NotFound
    else if jobs[id].finishedToken == Some(token) then
      if jobs[id].outcome == Some(o) then Replayed else Conflict
    else if jobs[id].status == Running && Holds(jobs[id].lease, token, now) then Applied
    else LeaseLost
  }

  function CancelResult(jobs: map<Id, Job>, id: Id): MutationResult {
    if id !in jobs then NotFound
    else if jobs[id].status == Cancelled then Replayed
    else if jobs[id].outcome.Some? then Conflict
    else if jobs[id].status in {Queued, Running} then Applied
    else Conflict
  }

  predicate CanRetry(jobs: map<Id, Job>, id: Id, token: Token, now: int) {
    id in jobs && jobs[id].status == Running && Holds(jobs[id].lease, token, now)
  }

  function RetriedJob(j: Job, error: Outcome, now: int, delayMs: int): Job {
    if j.attempt >= j.maxAttempts then Ended(j, error, HeldToken(j)).(nextAttemptAt := now + delayMs)
    else j.(status := Queued, outcome := None, nextAttemptAt := now + delayMs, lease := None)
  }

  /** ON CONFLICT DO NOTHING, and nothing at all for a job without an inbox. */
  function WithCompletion(outbox: map<Id, Completion>, id: Id, j: Job, o: Outcome, now: int): map<Id, Completion> {
    if !j.hasInbox || id in outbox then outbox else outbox[id := Completion(o, 0, now, None, false)]
  }

  function ExhaustedIds(jobs: map<Id, Job>, now: int): set<Id> {
    set id | id in jobs && Exhausted(jobs[id], now)
  }

  /** Every job of `ids` fails, and its completion waits in the outbox. */
  function FailedJobs(jobs: map<Id, Job>, ids: set<Id>): map<Id, Job> {
    map id | id in jobs :: if id in ids then Ended(jobs[id], EXPIRED, HeldToken(jobs[id])) else jobs[id]
  }

  function FailedCompletions(jobs: map<Id, Job>, outbox: map<Id, Completion>, ids: set<Id>, now: int): map<Id, Completion> {
    map id | id in outbox.Keys + ids && (id in outbox || (id in jobs && jobs[id].hasInbox)) ::
      if id in outbox then outbox[id] else Completion(EXPIRED, 0, now, None, false)
  }

  function FailedExpired(jobs: map<Id, Job>, now: int): map<Id, Job> {
    FailedJobs(jobs, ExhaustedIds(jobs, now))
  }

  function ExpiredCompletions(jobs: map<Id, Job>, outbox: map<Id, Completion>, now: int): map<Id, Completion> {
    FailedCompletions(jobs, outbox, ExhaustedIds(jobs, now), now)
  }

  lemma FailNone(jobs: map<Id, Job>, outbox: map<Id, Completion>, now: int)
    ensures FailedJobs(jobs, {}) == jobs && FailedCompletions(jobs, outbox, {}, now) == outbox
  {
  }

  lemma TakeOne(done: set<Id>, rows: set<Id>, id: Id)
    requires id in rows && done !! rows
    ensures (done + {id}) + (rows - {id}) == done + rows && (done + {id}) !! (rows - {id})
    ensures |done + {id}| == |done| + 1 && |rows - {id}| == |rows| - 1
  {
  }

  lemma FailOneMore(jobs: map<Id, Job>, outbox: map<Id, Completion>, ids: set<Id>, id: Id, now: int)
    requires id in jobs && id !in ids
    ensures FailedJobs(jobs, ids + {id}) == FailedJobs(jobs, ids)[id := Ended(jobs[id], EXPIRED, HeldToken(jobs[id]))]
    ensures FailedCompletions(jobs, outbox, ids + {id}, now)
         == WithCompletion(FailedCompletions(jobs, outbox, ids, now), id, jobs[id], EXPIRED, now)
    ensures FailedJobs(jobs, ids).Keys == jobs.Keys && FailedJobs(jobs, ids)[id] == jobs[id]
  {
  }

  predicate Deliverable(c: Completion, now: int) {
    !c.delivered && c.nextAttemptAt <= now && c.attempt < OUTBOX_ATTEMPTS && (c.lease.None? || RunOut(c.lease, now))
  }

  /** The repository, over rows that it updates in place. */
  class Repository {
    var jobs: map<Id, Job>
    var outbox: map<Id, Completion>

    method InsertOutbox(id: Id, o: Outcome, now: int)
      requires id in jobs
      modifies this`outbox
      ensures outbox == WithCompletion(old(outbox), id, jobs[id], o, now)
    {
      if jobs[id].hasInbox && id !in outbox {
        outbox := outbox[id := Completion(o, 0, now, None, false)];
      }
    }

    method FailRow(id: Id, now: int)
      requires id in jobs
      modifies this
      ensures jobs == old(jobs)[id := Ended(old(jobs)[id], EXPIRED, HeldToken(old(jobs)[id]))]
      ensures outbox == WithCompletion(old(outbox), id, old(jobs)[id], EXPIRED, now)
    {
      var row := jobs[id];
      jobs := jobs[id := row.(status := Failed, outcome := Some(EXPIRED), finishedToken := HeldToken(row), lease := None)];
      InsertOutbox(id, EXPIRED, now);
    }

    method FailExpiredMaxAttempts(now: int) returns (failed: nat)
      modifies this
      ensures jobs == FailedExpired(old(jobs), now)
      ensures outbox == ExpiredCompletions(old(jobs), old(outbox), now)
      ensures failed == |ExhaustedIds(old(jobs), now)|
    {
      ghost var was, outboxWas, all := jobs, outbox, ExhaustedIds(jobs, now);
      ghost var done: set<Id> := {};
      var rows := ExhaustedIds(jobs, now);
      failed := 0;
      FailNone(was, outbox, now);
      while rows != {}
        invariant done + rows == all && done !! rows && failed == |done|
        invariant jobs == FailedJobs(was, done) && outbox == FailedCompletions(was, outboxWas, done, now)
        decreases |rows|
      {
        var id: Id :| id in rows;
        TakeOne(done, rows, id);
        FailOneMore(was, outboxWas, done, id, now);
        FailRow(id, now);
        rows, done, failed := rows - {id}, done + {id}, failed + 1;
      }
      assert done + rows == done;
    }

    /** `FOR UPDATE SKIP LOCKED LIMIT 1` returns `pick`, or no row. */
    method Claim(pick: Id, token: Token, now: int, leaseMs: int) returns (lease: Option<Job>)
      modifies this
      ensures outbox == ExpiredCompletions(old(jobs), old(outbox), now)
      ensures var swept := FailedExpired(old(jobs), now);
              && (lease.Some? <==> pick in swept && Claimable(swept[pick], now))
              && (lease.Some? ==> lease.value == ClaimedJob(swept[pick], token, now, leaseMs))
              && jobs == if lease.Some? then swept[pick := lease.value] else swept
    {
      var _ := FailExpiredMaxAttempts(now);
      lease := None;
      if pick in jobs && Claimable(jobs[pick], now) {
        var row := jobs[pick];
        row := row.(status := Running, attempt := row.attempt + 1);
        row := row.(lease := Some(Lease(token, now + leaseMs)));
        jobs := jobs[pick := row];
        lease := Some(row);
      }
    }

    method Heartbeat(id: Id, token: Token, now: int, leaseMs: int) returns (active: bool)
      modifies this`jobs
      ensures active == (id in old(jobs) && old(jobs)[id].status == Running && Holds(old(jobs)[id].lease, token, now))
      ensures jobs == if active then old(jobs)[id := old(jobs)[id].(lease := Some(Lease(token, now + leaseMs)))] else old(jobs)
    {
      active := false;
      if id in jobs && jobs[id].status == Running && jobs[id].lease.Some? {
        var lease := jobs[id].lease.value;
        if lease.token == token && lease.expiresAt > now {
          jobs := jobs[id := jobs[id].(lease := Some(lease.(expiresAt := now + leaseMs)))];
          active := true;
        }
      }
    }

    method Finish(id: Id, token: Token, o: Outcome, now: int) returns (r: MutationResult)
      modifies this
      ensures r == FinishResult(old(jobs), id, token, o, now)
      ensures jobs == if r == Applied then old(jobs)[id := Ended(old(jobs)[id], o, Some(token))] else old(jobs)
      ensures outbox == if r == Applied then WithCompletion(old(outbox), id, old(jobs)[id], o, now) else old(outbox)
    {
      if id !in jobs {
        return NotFound;
      }
      var row := jobs[id];
      if row.finishedToken == Some(token) {
        return if row.outcome == Some(o) then Replayed else Conflict;
      }
      if row.status != Running || row.lease.None? || row.lease.value.token != token || row.lease.value.expiresAt <= now {
        return LeaseLost;
      }
      row := row.(status := StatusOf(o), outcome := Some(o));
      row := row.(finishedToken := Some(row.lease.value.token), lease := None);
      jobs := jobs[id := row];
      InsertOutbox(id, o, now);
      r := Applied;
    }

    method Cancel(id: Id, reason: string, now: int) returns (r: MutationResult)
      modifies this
      ensures r == CancelResult(old(jobs), id)
      ensures jobs == if r == Applied
                      then old(jobs)[id := Ended(old(jobs)[id], CancelledWith(reason), old(jobs)[id].finishedToken)]
                      else old(jobs)
      ensures outbox == if r == Applied then WithCompletion(old(outbox), id, old(jobs)[id], CancelledWith(reason), now)
                        else old(outbox)
    {
      if id !in jobs {
        return NotFound;
      }
      if jobs[id].status == Cancelled {
        return Replayed;
      }
      if jobs[id].outcome.Some? || (jobs[id].status != Queued && jobs[id].status != Running) {
        return Conflict;
      }
      var outcome := CancelledWith(reason);
      jobs := jobs[id := jobs[id].(status := Cancelled, outcome := Some(outcome), lease := None)];
      InsertOutbox(id, outcome, now);
      r := Applied;
    }

    method Retry(id: Id, token: Token, error: string, code: string, now: int, delayMs: int) returns (ok: bool)
      modifies this
      ensures ok == CanRetry(old(jobs), id, token, now)
      ensures jobs == if ok then old(jobs)[id := RetriedJob(old(jobs)[id], FailedWith(error, code), now, delayMs)] else old(jobs)
      ensures outbox == if ok && old(jobs)[id].attempt >= old(jobs)[id].maxAttempts
                        then WithCompletion(old(outbox), id, old(jobs)[id], FailedWith(error, code), now) else old(outbox)
    {
      ok := false;
      if id in jobs && jobs[id].status == Running && jobs[id].lease.Some?
         && jobs[id].lease.value.token == token && jobs[id].lease.value.expiresAt > now
      {
        ok := true;
        var row := jobs[id].(nextAttemptAt := now + delayMs);
        if row.attempt >= row.maxAttempts {
          row := row.(status := Failed, outcome := Some(FailedWith(error, code)), finishedToken := Some(token));
        } else {
          row := row.(status := Queued, outcome := None);
        }
        jobs := jobs[id := row.(lease := None)];
        if row.status == Failed {
          InsertOutbox(id, FailedWith(error, code), now);
        }
      }
    }

    method ClaimOutbox(pick: Id, token: Token, now: int, leaseMs: int) returns (c: Option<Outcome>)
      modifies this`outbox
      ensures c.Some? <==> pick in old(outbox) && Deliverable(old(outbox)[pick], now)
      ensures c.Some? ==> c.value == old(outbox)[pick].outcome
      ensures outbox == if c.Some?
                        then old(outbox)[pick := old(outbox)[pick].(
                               lease := Some(Lease(token, now + leaseMs)), attempt := old(outbox)[pick].attempt + 1)]
                        else old(outbox)
    {
      c := None;
      if pick in outbox && Deliverable(outbox[pick], now) {
        var row := outbox[pick];
        outbox := outbox[pick := row.(lease := Some(Lease(token, now + leaseMs)), attempt := row.attempt + 1)];
        c := Some(row.outcome);
      }
    }

    method CompleteOutbox(id: Id, token: Token, now: int) returns (ok: bool)
      modifies this`outbox
      ensures ok == (id in old(outbox) && !old(outbox)[id].delivered && Holds(old(outbox)[id].lease, token, now))
      ensures outbox == if ok then old(outbox)[id := old(outbox)[id].(delivered := true, lease := None)] else old(outbox)
    {
      ok := id in outbox && !outbox[id].delivered && Holds(outbox[id].lease, token, now);
      if ok {
        outbox := outbox[id := outbox[id].(delivered := true, lease := None)];
      }
    }

    method RetryOutbox(id: Id, token: Token, now: int, delayMs: int) returns (ok: bool)
      modifies this`outbox
      ensures ok == (id in old(outbox) && !old(outbox)[id].delivered && Holds(old(outbox)[id].lease, token, now))
      ensures outbox == if ok then old(outbox)[id := old(outbox)[id].(nextAttemptAt := now + delayMs, lease := None)]
                        else old(outbox)
    {
      ok := id in outbox && !outbox[id].delivered && Holds(outbox[id].lease, token, now);
      if ok {
        outbox := outbox[id := outbox[id].(nextAttemptAt := now + delayMs, lease := None)];
      }
    }
  }
}

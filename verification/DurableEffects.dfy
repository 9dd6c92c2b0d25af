/** What each statement on durable jobs and their completions leaves in the rows, column by column, in any state that a
    run can reach. */
module DurableEffects {
  import opened Option
  import opened DurableJobTables
  import opened DurableJobs

  /** Some run leads here. */
  ghost predicate Reachable(t: System) {
    exists s, steps :: Init(s) && Run(s, steps) == t
  }

  lemma ReachableFits(t: System)
    requires Reachable(t)
    ensures Inv(t)
  {
    var s, steps :| Init(s) && Run(s, steps) == t;
    RunKeeps(s, steps);
  }

  lemma RowFits(t: System, id: Id)
    requires Reachable(t) && id in t.jobs
    ensures JobOk(t.jobs[id]) && CompletionOk(t.jobs[id], id, t.outbox)
  {
    ReachableFits(t);
    assert RowOk(t.jobs[id], id, t.leases, t.claims);
  }

  /** The status is that of the outcome; without an outcome the job waits or runs, and it has a lease exactly while it
      runs. */
  lemma StatusSaysOutcome(t: System, id: Id)
    requires Reachable(t) && id in t.jobs
    ensures var j := t.jobs[id];
            && (j.status == Completed <==> j.outcome.Some? && j.outcome.value.CompletedWith?)
            && (j.status == Failed <==> j.outcome.Some? && j.outcome.value.FailedWith?)
            && (j.status == Cancelled <==> j.outcome.Some? && j.outcome.value.CancelledWith?)
            && (j.status == Running <==> j.lease.Some?)
  {
    RowFits(t, id);
  }

  // ---- Jobs ----

  /** Only row `id` differs. */
  predicate OnlyJob(before: map<Id, Job>, after: map<Id, Job>, id: Id) {
    after.Keys == before.Keys && forall k :: k in before && k != id ==> after[k] == before[k]
  }

  /** The same row but for its status, outcome, token and lease. */
  predicate SameTerms(a: Job, b: Job) {
    b.attempt == a.attempt && b.maxAttempts == a.maxAttempts && b.hasInbox == a.hasInbox
  }

  /** The worker's lease is the job's and has not run out. */
  predicate Holder(t: System, w: Id) {
    && w in t.workers && t.workers[w].job in t.jobs
    && var j := t.jobs[t.workers[w].job];
       j.status == Running && j.lease.Some? && j.lease.value.token == t.workers[w].token && j.lease.value.expiresAt > t.now
  }

  /** The job has ended with `o`, by the lease `token`, and its completion waits if somebody asked for it. */
  ghost predicate EndedBy(t: System, after: System, id: Id, o: Outcome, finished: Option<Token>)
    requires id in t.jobs
  {
    && OnlyJob(t.jobs, after.jobs, id) && SameTerms(t.jobs[id], after.jobs[id])
    && after.jobs[id].outcome == Some(o) && after.jobs[id].finishedToken == finished && after.jobs[id].lease == None
    && after.outbox == if t.jobs[id].hasInbox then t.outbox[id := Completion(o, 0, t.now, None, false)] else t.outbox
  }

  lemma RecordLeaves(t: System, w: Id, o: Outcome)
    requires Reachable(t) && w in t.workers && !o.CancelledWith?
    ensures var id, token := t.workers[w].job, t.workers[w].token;
            var after := Record(t, id, token, o);
            && (Holder(t, w) ==>
                  && EndedBy(t, after, id, o, Some(token)) && after.jobs[id].nextAttemptAt == t.jobs[id].nextAttemptAt
                  && after.jobs[id].status == (if o.CompletedWith? then Completed else Failed))
            && (!Holder(t, w) ==> after == t)
  {
    if t.workers[w].job in t.jobs {
      RowFits(t, t.workers[w].job);
    }
  }

  /** A target that returned: its job is completed with its output by the holder, and untouched by anyone else. */
  lemma FinishLeaves(t: System, w: Id, o: Outcome, throws: bool)
    requires Reachable(t) && w in t.workers && !t.workers[w].inCatch && !o.CancelledWith?
    ensures var after, id := Apply(t, ToFinish(w, o, throws)), t.workers[w].job;
            && (Holder(t, w) ==>
                  && EndedBy(t, after, id, o, Some(t.workers[w].token))
                  && after.jobs[id].nextAttemptAt == t.jobs[id].nextAttemptAt
                  && after.jobs[id].status == (if o.CompletedWith? then Completed else Failed))
            && (!Holder(t, w) ==> after.jobs == t.jobs && after.outbox == t.outbox)
            && (w in after.workers <==> throws) && (throws ==> after.workers[w] == t.workers[w].(inCatch := true))
  {
    RecordLeaves(t, w, o);
  }

  /** The catch block: the holder fails the job with its error. */
  lemma CatchLeaves(t: System, w: Id, error: string, code: string)
    requires Reachable(t) && w in t.workers && t.workers[w].inCatch
    ensures var after, id := Apply(t, ToCatch(w, error, code)), t.workers[w].job;
            && (Holder(t, w) && t.workers[w].leaseActive ==>
                  && EndedBy(t, after, id, FailedWith(error, code), Some(t.workers[w].token))
                  && after.jobs[id].nextAttemptAt == t.jobs[id].nextAttemptAt && after.jobs[id].status == Failed)
            && (!(Holder(t, w) && t.workers[w].leaseActive) ==> after.jobs == t.jobs && after.outbox == t.outbox)
            && w !in after.workers
  {
    RecordLeaves(t, w, FailedWith(error, code));
  }

  /** A worker finishes before its catch block and fails its job only inside it; neither cancels. */
  lemma OutOfTurn(t: System, w: Id, o: Outcome, throws: bool, error: string, code: string)
    requires w in t.workers
    ensures t.workers[w].inCatch || o.CancelledWith? ==> Apply(t, ToFinish(w, o, throws)) == t
    ensures !t.workers[w].inCatch ==> Apply(t, ToCatch(w, error, code)) == t
  {
  }

  lemma CancelLeaves(t: System, id: Id, reason: string)
    requires Reachable(t) && id in t.jobs
    ensures var after := Apply(t, ByCancel(id, reason));
            if t.jobs[id].status == Queued || t.jobs[id].status == Running
            then EndedBy(t, after, id, CancelledWith(reason), t.jobs[id].finishedToken) && after.jobs[id].status == Cancelled
                 && after.jobs[id].nextAttemptAt == t.jobs[id].nextAttemptAt
            else after == t
  {
    RowFits(t, id);
  }

  /** The holder of the lease puts the job back, or fails it after its last attempt. */
  lemma RetryLeaves(t: System, id: Id, token: Token, error: string, code: string, delayMs: int)
    requires Reachable(t) && id in t.jobs
    ensures var after, j := Apply(t, ByRetry(id, token, error, code, delayMs)), t.jobs[id];
            if j.status != Running || j.lease.None? || j.lease.value.token != token || j.lease.value.expiresAt <= t.now then after == t
            else if j.attempt >= j.maxAttempts then
              EndedBy(t, after, id, FailedWith(error, code), Some(token)) && after.jobs[id].status == Failed
              && after.jobs[id].nextAttemptAt == t.now + delayMs
            else
              after.outbox == t.outbox && OnlyJob(t.jobs, after.jobs, id)
              && after.jobs[id] == j.(status := Queued, nextAttemptAt := t.now + delayMs, lease := None)
  {
    RowFits(t, id);
  }

  lemma HeartbeatLeaves(t: System, w: Id, leaseMs: int)
    requires Reachable(t) && w in t.workers
    ensures var after, p := Apply(t, ToHeartbeat(w, leaseMs)), t.workers[w];
            if Holder(t, w)
            then OnlyJob(t.jobs, after.jobs, p.job) && after.workers == t.workers
                 && after.jobs[p.job] == t.jobs[p.job].(lease := Some(Lease(p.token, t.now + leaseMs)))
            else after.jobs == t.jobs && after.workers == t.workers[w := p.(leaseActive := false)]
  {
  }

  // ---- Answers ----

  /** What `finish` answers, and when. */
  lemma FinishAnswers(t: System, id: Id, token: Token, o: Outcome)
    requires Reachable(t)
    ensures var r := FinishResult(t.jobs, id, token, o, t.now);
            && (r == NotFound <==> id !in t.jobs)
            && (r == Applied <==> id in t.jobs && t.jobs[id].status == Running && t.jobs[id].lease.Some?
                                  && t.jobs[id].lease.value.token == token && t.jobs[id].lease.value.expiresAt > t.now)
            && (r == Replayed <==> id in t.jobs && t.jobs[id].finishedToken == Some(token) && t.jobs[id].outcome == Some(o))
            && (r == Conflict <==> id in t.jobs && t.jobs[id].finishedToken == Some(token) && t.jobs[id].outcome != Some(o))
  {
    if id in t.jobs {
      RowFits(t, id);
    }
  }

  lemma CancelAnswers(t: System, id: Id)
    requires Reachable(t)
    ensures var r := CancelResult(t.jobs, id);
            && (r == NotFound <==> id !in t.jobs)
            && (r == Applied <==> id in t.jobs && t.jobs[id].outcome.None?)
            && (r == Replayed <==> id in t.jobs && t.jobs[id].outcome.Some? && t.jobs[id].outcome.value.CancelledWith?)
            && (r == Conflict <==> id in t.jobs && t.jobs[id].outcome.Some? && !t.jobs[id].outcome.value.CancelledWith?)
  {
    if id in t.jobs {
      RowFits(t, id);
    }
  }

  /** Once a lease has recorded an outcome, `finish` under that lease answers the same outcome with a replay and every
      other one with a conflict, for ever, and changes nothing. */
  lemma FinishIsReplayed(t: System, steps: seq<Step>, id: Id, token: Token, again: Outcome)
    requires Reachable(t) && id in t.jobs && t.jobs[id].finishedToken == Some(token)
    ensures var u := Run(t, steps);
            && FinishResult(u.jobs, id, token, again, u.now) == (if t.jobs[id].outcome == Some(again) then Replayed else Conflict)
            && Record(u, id, token, again) == u
  {
    ReachableFits(t);
    RowFits(t, id);
    RunKeeps(t, steps);
    assert id in Run(t, steps).jobs && Moves(t.jobs[id], Run(t, steps).jobs[id]);
  }

  // ---- The claim, and the sweep before it ----

  /** The last lease of the job has run out. */
  predicate OutOfAttempts(t: System, id: Id) {
    && id in t.jobs && t.jobs[id].status == Running && t.jobs[id].attempt >= t.jobs[id].maxAttempts
    && t.jobs[id].lease.Some? && t.jobs[id].lease.value.expiresAt <= t.now
  }

  /** Due, with attempts left, and waiting or with a lease that has run out. */
  predicate Waits(t: System, id: Id) {
    && id in t.jobs && t.jobs[id].nextAttemptAt <= t.now && t.jobs[id].attempt < t.jobs[id].maxAttempts
    && (t.jobs[id].status == Queued
        || (t.jobs[id].status == Running && t.jobs[id].lease.Some? && t.jobs[id].lease.value.expiresAt <= t.now))
  }

  /** Every job out of attempts fails, whatever job the claim goes on to pick. */
  lemma SweepLeaves(t: System, w: Id, pick: Id, token: Token, leaseMs: int, id: Id)
    requires Reachable(t) && OutOfAttempts(t, id)
    ensures var after := Apply(t, ToClaim(w, pick, token, leaseMs));
            && id in after.jobs && after.jobs[id].status == Failed && after.jobs[id].lease == None
            && after.jobs[id].outcome
               == Some(FailedWith("Durable job lease expired after its final attempt", "LEASE_EXPIRED"))
            && after.jobs[id].finishedToken == Some(t.jobs[id].lease.value.token)
            && SameTerms(t.jobs[id], after.jobs[id])
            && (id in after.outbox <==> t.jobs[id].hasInbox)
            && (t.jobs[id].hasInbox ==> after.outbox[id] == Completion(after.jobs[id].outcome.value, 0, t.now, None, false))
  {
    RowFits(t, id);
  }

  /** A worker that is free and has a fresh token gets the job it picks exactly when that waits for an attempt. */
  lemma ClaimLeaves(t: System, w: Id, pick: Id, token: Token, leaseMs: int)
    requires Reachable(t) && w !in t.workers && token !in t.leases
    ensures var after := Apply(t, ToClaim(w, pick, token, leaseMs));
            && (w in after.workers <==> Waits(t, pick))
            && (Waits(t, pick) ==>
                  && after.workers[w] == Worker(pick, token, true, false) && pick in after.jobs
                  && after.jobs[pick] == t.jobs[pick].(status := Running, attempt := t.jobs[pick].attempt + 1,
                                                       lease := Some(Lease(token, t.now + leaseMs))))
            && (forall id :: id in t.jobs && !OutOfAttempts(t, id) && !(id == pick && Waits(t, pick)) ==>
                  id in after.jobs && after.jobs[id] == t.jobs[id])
  {
    ReachableFits(t);
    ClaimsAreKept(t);
    SweepLeavesOthers(t);
    var swept := SweepExhausted(t);
    WaitsAfterSweep(t, pick);
    ClaimSwept(swept, w, pick, token, leaseMs);
  }

  lemma WaitsAfterSweep(t: System, pick: Id)
    ensures Waits(SweepExhausted(t), pick) <==> Waits(t, pick)
  {
    SweepLeavesOthers(t);
  }

  lemma ClaimSwept(t: System, w: Id, pick: Id, token: Token, leaseMs: int)
    requires w !in t.workers && token !in t.leases && t.jobs.Keys <= t.claims.Keys
    ensures var after := Claim(t, w, pick, token, leaseMs);
            && (w in after.workers <==> Waits(t, pick)) && after.jobs.Keys == t.jobs.Keys
            && (Waits(t, pick) ==>
                  && after.workers[w] == Worker(pick, token, true, false)
                  && after.jobs[pick] == t.jobs[pick].(status := Running, attempt := t.jobs[pick].attempt + 1,
                                                       lease := Some(Lease(token, t.now + leaseMs))))
            && (forall id :: id in t.jobs && !(id == pick && Waits(t, pick)) ==> after.jobs[id] == t.jobs[id])
  {
  }

  lemma SweepLeavesOthers(t: System)
    ensures var swept := SweepExhausted(t);
            && swept.jobs.Keys == t.jobs.Keys && swept.(jobs := t.jobs, outbox := t.outbox) == t
            && (forall id :: id in t.jobs && !OutOfAttempts(t, id) ==> swept.jobs[id] == t.jobs[id])
            && (forall id :: OutOfAttempts(t, id) ==> swept.jobs[id].status != Running && swept.jobs[id].status != Queued)
  {
  }

  // ---- Completions ----

  predicate OnlyCompletion(before: map<Id, Completion>, after: map<Id, Completion>, id: Id) {
    after.Keys == before.Keys && forall k :: k in before && k != id ==> after[k] == before[k]
  }

  /** Undelivered, due, tried less than ten times and not leased to another publisher. */
  predicate MayGoOut(t: System, id: Id) {
    && id in t.outbox && !t.outbox[id].delivered && t.outbox[id].nextAttemptAt <= t.now && t.outbox[id].attempt < 10
    && (t.outbox[id].lease.None? || t.outbox[id].lease.value.expiresAt <= t.now)
  }

  lemma ClaimOutboxLeaves(t: System, w: Id, pick: Id, token: Token, leaseMs: int)
    requires w !in t.publishers
    ensures var after := Apply(t, ToClaimOutbox(w, pick, token, leaseMs));
            if MayGoOut(t, pick)
            then OnlyCompletion(t.outbox, after.outbox, pick)
                 && after.outbox[pick] == t.outbox[pick].(attempt := t.outbox[pick].attempt + 1,
                                                          lease := Some(Lease(token, t.now + leaseMs)))
                 && after.publishers == t.publishers[w := Publisher(pick, token, t.outbox[pick].outcome, false)]
            else after == t
  {
  }

  /** The publisher's lease is the completion's and has not run out. */
  predicate PublisherHolds(t: System, w: Id) {
    && w in t.publishers && t.publishers[w].job in t.outbox
    && var c := t.outbox[t.publishers[w].job];
       !c.delivered && c.lease.Some? && c.lease.value.token == t.publishers[w].token && c.lease.value.expiresAt > t.now
  }

  /** An injection keeps what the inbox has. */
  lemma InjectLeaves(t: System, w: Id)
    requires w in t.publishers
    ensures var after, p := Apply(t, ToInject(w)), t.publishers[w];
            && p.job in after.inbox && after.inbox[p.job] == (if p.job in t.inbox then t.inbox[p.job] else p.completion)
            && (forall id :: id != p.job ==> (id in after.inbox <==> id in t.inbox))
            && (forall id :: id in t.inbox ==> id in after.inbox && after.inbox[id] == t.inbox[id])
            && after.outbox == t.outbox && after.jobs == t.jobs
  {
  }

  lemma CompleteLeaves(t: System, w: Id)
    requires w in t.publishers
    ensures var after, id := Apply(t, ToComplete(w)), t.publishers[w].job;
            if PublisherHolds(t, w) && t.publishers[w].injected
            then OnlyCompletion(t.outbox, after.outbox, id)
                 && after.outbox[id] == t.outbox[id].(delivered := true, lease := None)
            else after == t
  {
  }

  lemma RetryOutboxLeaves(t: System, w: Id, delayMs: int)
    requires w in t.publishers
    ensures var after, id := Apply(t, ToRetryOutbox(w, delayMs)), t.publishers[w].job;
            if PublisherHolds(t, w)
            then OnlyCompletion(t.outbox, after.outbox, id)
                 && after.outbox[id] == t.outbox[id].(nextAttemptAt := t.now + delayMs, lease := None)
            else after == t
  {
  }
}

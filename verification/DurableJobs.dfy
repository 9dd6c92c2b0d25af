/** Job workers and outbox publishers over the repository: leases run out, heartbeats find them lost,
    targets throw, `finish` throws after or before it took effect, jobs are cancelled, and any
    process may stop. */
module DurableJobs {
  import opened Option
  import opened DurableJobTables

  /** Inside `executeOne`, after the claim. */
  datatype Worker = Worker(job: Id, token: Token, leaseActive: bool, inCatch: bool)

  /** Inside `publishOne`, after the claim. */
  datatype Publisher = Publisher(job: Id, token: Token, completion: Outcome, injected: bool)

  datatype System = System(
    now: int, jobs: map<Id, Job>, outbox: map<Id, Completion>, inbox: map<Id, Outcome>,
    workers: map<Id, Worker>, publishers: map<Id, Publisher>,
    leases: map<Token, Id>, claims: map<Id, nat>)  // every lease ever issued, and how many per job

  datatype Step =
    | ToTick(to: int)
    | ToCreate(id: Id, job: Job)
    | ToClaim(worker: Id, pick: Id, token: Token, leaseMs: int)
    | ToHeartbeat(worker: Id, leaseMs: int)
    | ToFinish(worker: Id, outcome: Outcome, throws: bool)
    | ToThrow(worker: Id)
    | ToCatch(worker: Id, error: string, code: string)
    | ToStop(worker: Id)
    | ByCancel(id: Id, reason: string)
    | ByRetry(id: Id, token: Token, error: string, code: string, delayMs: int)
    | ToClaimOutbox(worker: Id, pick: Id, token: Token, leaseMs: int)
    | ToInject(worker: Id)
    | ToComplete(worker: Id)
    | ToRetryOutbox(worker: Id, delayMs: int)
    | ToStopPublisher(worker: Id)

  predicate OfPublishers(step: Step) {
    step.ToClaimOutbox? || step.ToInject? || step.ToComplete? || step.ToRetryOutbox? || step.ToStopPublisher?
  }

  predicate NewJob(j: Job) {
    && j.status == Queued && j.attempt == 0 && j.maxAttempts > 0 && j.lease == None
    && j.finishedToken == None && j.outcome == None
  }

  function Create(s: System, id: Id, j: Job): System {
    if id !in s.jobs && NewJob(j) then s.(jobs := s.jobs[id := j], claims := s.claims[id := 0]) else s
  }

  /** `claim` begins by failing the jobs whose last lease has run out. */
  function SweepExhausted(s: System): System {
    s.(jobs := FailedExpired(s.jobs, s.now), outbox := ExpiredCompletions(s.jobs, s.outbox, s.now))
  }

  function Claim(s: System, w: Id, id: Id, token: Token, leaseMs: int): System {
    if id !in s.jobs || !Claimable(s.jobs[id], s.now) || w in s.workers || token in s.leases || id !in s.claims then s
    else s.(jobs := s.jobs[id := ClaimedJob(s.jobs[id], token, s.now, leaseMs)],
            workers := s.workers[w := Worker(id, token, true, false)],
            leases := s.leases[token := id], claims := s.claims[id := s.claims[id] + 1])
  }

  function Heartbeat(s: System, w: Id, leaseMs: int): System {
    if w !in s.workers then s else
    var Worker(id, token, _, _) := s.workers[w];
    if id in s.jobs && s.jobs[id].status == Running && Holds(s.jobs[id].lease, token, s.now)
    then s.(jobs := s.jobs[id := s.jobs[id].(lease := Some(Lease(token, s.now + leaseMs)))])
    else s.(workers := s.workers[w := s.workers[w].(leaseActive := false)])
  }

  /** `repository.finish`. */
  function Record(s: System, id: Id, token: Token, o: Outcome): System {
    if FinishResult(s.jobs, id, token, o, s.now) == Applied
    then s.(jobs := s.jobs[id := Ended(s.jobs[id], o, Some(token))],
            outbox := WithCompletion(s.outbox, id, s.jobs[id], o, s.now))
    else s
  }

  /** `throws`: the call takes effect, but the worker gets an error instead of its result.  A result,
      whatever it says, is an object and so never counts as a lost lease. */
  function Finish(s: System, w: Id, o: Outcome, throws: bool): System {
    if w !in s.workers || s.workers[w].inCatch || o.CancelledWith? then s else
    var p := s.workers[w];
    Record(s, p.job, p.token, o).(workers := if throws then s.workers[w := p.(inCatch := true)] else s.workers - {w})
  }

  function Catch(s: System, w: Id, error: string, code: string): System {
    if w !in s.workers || !s.workers[w].inCatch then s else
    var p := s.workers[w];
    var after := if p.leaseActive then Record(s, p.job, p.token, FailedWith(error, code)) else s;
    after.(workers := s.workers - {w})
  }

  function Cancel(s: System, id: Id, reason: string): System {
    if CancelResult(s.jobs, id) != Applied then s else
    var o := CancelledWith(reason);
    s.(jobs := s.jobs[id := Ended(s.jobs[id], o, s.jobs[id].finishedToken)],
       outbox := WithCompletion(s.outbox, id, s.jobs[id], o, s.now))
  }

  function Retry(s: System, id: Id, token: Token, o: Outcome, delayMs: int): System {
    if !CanRetry(s.jobs, id, token, s.now) || !o.FailedWith? then s else
    s.(jobs := s.jobs[id := RetriedJob(s.jobs[id], o, s.now, delayMs)],
       outbox := if s.jobs[id].attempt >= s.jobs[id].maxAttempts
                 then WithCompletion(s.outbox, id, s.jobs[id], o, s.now) else s.outbox)
  }

  function ClaimOutbox(s: System, w: Id, id: Id, token: Token, leaseMs: int): System {
    if id !in s.outbox || !Deliverable(s.outbox[id], s.now) || w in s.publishers then s else
    var c := s.outbox[id];
    s.(outbox := s.outbox[id := c.(lease := Some(Lease(token, s.now + leaseMs)), attempt := c.attempt + 1)],
       publishers := s.publishers[w := Publisher(id, token, c.outcome, false)])
  }

  /** The inbox keeps the first completion under a key. */
  function Inject(s: System, w: Id): System {
    if w !in s.publishers then s else
    var p := s.publishers[w];
    s.(inbox := if p.job in s.inbox then s.inbox else s.inbox[p.job := p.completion],
       publishers := s.publishers[w := p.(injected := true)])
  }

  predicate MayAcknowledge(s: System, w: Id) {
    w in s.publishers
    && var p := s.publishers[w];
       p.job in s.outbox && !s.outbox[p.job].delivered && Holds(s.outbox[p.job].lease, p.token, s.now)
  }

  /** Acknowledged only after the injection returned. */
  function Complete(s: System, w: Id): System {
    if !MayAcknowledge(s, w) || !s.publishers[w].injected then s else
    var id := s.publishers[w].job;
    s.(outbox := s.outbox[id := s.outbox[id].(delivered := true, lease := None)], publishers := s.publishers - {w})
  }

  function RetryOutbox(s: System, w: Id, delayMs: int): System {
    if !MayAcknowledge(s, w) then s else
    var id := s.publishers[w].job;
    s.(outbox := s.outbox[id := s.outbox[id].(nextAttemptAt := s.now + delayMs, lease := None)], publishers := s.publishers - {w})
  }

  function Apply(s: System, step: Step): System {
    match step
    case ToTick(to) => if to >= s.now then s.(now := to) else s
    case ToCreate(id, j) => Create(s, id, j)
    case ToClaim(w, pick, token, ms) => Claim(SweepExhausted(s), w, pick, token, ms)
    case ToHeartbeat(w, ms) => Heartbeat(s, w, ms)
    case ToFinish(w, o, throws) => Finish(s, w, o, throws)
    case ToThrow(w) => if w in s.workers then s.(workers := s.workers[w := s.workers[w].(inCatch := true)]) else s
    case ToCatch(w, error, code) => Catch(s, w, error, code)
    case ToStop(w) => s.(workers := s.workers - {w})
    case ByCancel(id, reason) => Cancel(s, id, reason)
    case ByRetry(id, token, error, code, delay) => Retry(s, id, token, FailedWith(error, code), delay)
    case ToClaimOutbox(w, pick, token, ms) => ClaimOutbox(s, w, pick, token, ms)
    case ToInject(w) => Inject(s, w)
    case ToComplete(w) => Complete(s, w)
    case ToRetryOutbox(w, delay) => RetryOutbox(s, w, delay)
    case ToStopPublisher(w) => s.(publishers := s.publishers - {w})
  }

  function Run(s: System, steps: seq<Step>): System
    decreases |steps|
  {
    if steps == [] then s else Run(Apply(s, steps[0]), steps[1..])
  }

  predicate Init(s: System) {
    && s.jobs == map[] && s.outbox == map[] && s.inbox == map[] && s.workers == map[] && s.publishers == map[]
    && s.leases == map[] && s.claims == map[]
  }

  // ---- What every step keeps, column by column ----

  predicate JobOk(j: Job) {
    && (j.status == Running <==> j.lease.Some?)
    && (j.outcome.Some? <==> j.status in {Completed, Failed, Cancelled})
    && (j.outcome.Some? ==> j.status == StatusOf(j.outcome.value))
    && (j.finishedToken.Some? ==> j.outcome.Some?)
    && j.attempt <= j.maxAttempts
  }

  /** The tokens on a job are leases issued for it. */
  predicate TokensOwn(j: Job, id: Id, leases: map<Token, Id>) {
    && (j.lease.Some? ==> j.lease.value.token in leases && leases[j.lease.value.token] == id)
    && (j.finishedToken.Some? ==> j.finishedToken.value in leases && leases[j.finishedToken.value] == id)
  }

  predicate RowOk(j: Job, id: Id, leases: map<Token, Id>, claims: map<Id, nat>) {
    JobOk(j) && TokensOwn(j, id, leases) && id in claims && claims[id] == j.attempt
  }

  ghost predicate RowsOk(jobs: map<Id, Job>, leases: map<Token, Id>, claims: map<Id, nat>) {
    forall id :: id in jobs ==> RowOk(jobs[id], id, leases, claims)
  }

  ghost predicate WorkersOk(workers: map<Id, Worker>, leases: map<Token, Id>) {
    forall w :: w in workers ==> workers[w].token in leases && leases[workers[w].token] == workers[w].job
  }

  /** A completion waits exactly for each ended job that somebody asked for, with its outcome. */
  predicate CompletionOk(j: Job, id: Id, outbox: map<Id, Completion>) {
    && (id in outbox <==> j.outcome.Some? && j.hasInbox)
    && (id in outbox ==> j.outcome == Some(outbox[id].outcome) && outbox[id].attempt <= OUTBOX_ATTEMPTS)
  }

  ghost predicate CompletionsOk(jobs: map<Id, Job>, outbox: map<Id, Completion>) {
    && (forall id :: id in jobs ==> CompletionOk(jobs[id], id, outbox))
    && (forall id :: id in outbox ==> id in jobs)
  }

  predicate PublisherOk(p: Publisher, outbox: map<Id, Completion>, inbox: map<Id, Outcome>) {
    p.job in outbox && p.completion == outbox[p.job].outcome && (p.injected ==> p.job in inbox)
  }

  ghost predicate DeliveryOk(outbox: map<Id, Completion>, inbox: map<Id, Outcome>, publishers: map<Id, Publisher>) {
    && (forall id :: id in inbox ==> id in outbox && inbox[id] == outbox[id].outcome)
    && (forall id :: id in outbox && outbox[id].delivered ==> id in inbox)
    && (forall w :: w in publishers ==> PublisherOk(publishers[w], outbox, inbox))
  }

  ghost predicate Inv(s: System) {
    && RowsOk(s.jobs, s.leases, s.claims) && WorkersOk(s.workers, s.leases)
    && CompletionsOk(s.jobs, s.outbox) && DeliveryOk(s.outbox, s.inbox, s.publishers)
  }

  /** One job in two states: an ended job stays as it ended. */
  predicate Moves(a: Job, b: Job) {
    && a.hasInbox == b.hasInbox && a.maxAttempts == b.maxAttempts && a.attempt <= b.attempt
    && (a.outcome.Some? ==> b.outcome == a.outcome && b.status == a.status && b.finishedToken == a.finishedToken)
  }

  ghost predicate JobsMove(a: map<Id, Job>, b: map<Id, Job>) {
    forall id :: id in a ==> id in b && Moves(a[id], b[id])
  }

  lemma MoveTwice(a: map<Id, Job>, b: map<Id, Job>, c: map<Id, Job>)
    requires JobsMove(a, b) && JobsMove(b, c)
    ensures JobsMove(a, c)
  {
    forall id | id in a
      ensures id in c && Moves(a[id], c[id])
    {
      assert id in b;
    }
  }

  ghost predicate Extends(a: map<Id, Completion>, b: map<Id, Completion>) {
    forall id :: id in a ==> id in b && b[id] == a[id]
  }

  /** New completions start undelivered. */
  lemma ExtendingKeepsDelivery(a: map<Id, Completion>, b: map<Id, Completion>, inbox: map<Id, Outcome>, publishers: map<Id, Publisher>)
    requires DeliveryOk(a, inbox, publishers) && Extends(a, b)
    requires forall id :: id in b && id !in a ==> !b[id].delivered
    ensures DeliveryOk(b, inbox, publishers)
  {
    forall w | w in publishers
      ensures PublisherOk(publishers[w], b, inbox)
    {
      assert PublisherOk(publishers[w], a, inbox);
    }
  }

  lemma SweepKeepsJobs(jobs: map<Id, Job>, leases: map<Token, Id>, claims: map<Id, nat>, now: int)
    requires RowsOk(jobs, leases, claims)
    ensures RowsOk(FailedExpired(jobs, now), leases, claims) && JobsMove(jobs, FailedExpired(jobs, now))
  {
    var after := FailedExpired(jobs, now);
    forall id | id in after
      ensures RowOk(after[id], id, leases, claims) && Moves(jobs[id], after[id])
    {
      assert RowOk(jobs[id], id, leases, claims);
    }
  }

  lemma SweepKeepsCompletions(s: System)
    requires Inv(s)
    ensures CompletionsOk(FailedExpired(s.jobs, s.now), ExpiredCompletions(s.jobs, s.outbox, s.now))
    ensures Extends(s.outbox, ExpiredCompletions(s.jobs, s.outbox, s.now))
  {
    var jobs, outbox := FailedExpired(s.jobs, s.now), ExpiredCompletions(s.jobs, s.outbox, s.now);
    forall id | id in jobs
      ensures CompletionOk(jobs[id], id, outbox)
    {
      assert CompletionOk(s.jobs[id], id, s.outbox) && RowOk(s.jobs[id], id, s.leases, s.claims);
    }
  }

  lemma SweepKeeps(s: System)
    requires Inv(s)
    ensures Inv(SweepExhausted(s)) && JobsMove(s.jobs, SweepExhausted(s).jobs)
  {
    SweepKeepsJobs(s.jobs, s.leases, s.claims, s.now);
    SweepKeepsCompletions(s);
    ExtendingKeepsDelivery(s.outbox, ExpiredCompletions(s.jobs, s.outbox, s.now), s.inbox, s.publishers);
  }

  lemma PutKeepsRows(jobs: map<Id, Job>, leases: map<Token, Id>, claims: map<Id, nat>, id: Id, j: Job)
    requires RowsOk(jobs, leases, claims) && RowOk(j, id, leases, claims) && (id in jobs ==> Moves(jobs[id], j))
    ensures RowsOk(jobs[id := j], leases, claims) && JobsMove(jobs, jobs[id := j])
  {
  }

  /** A job that changes without ending. */
  lemma PutKeepsCompletions(jobs: map<Id, Job>, outbox: map<Id, Completion>, id: Id, j: Job)
    requires CompletionsOk(jobs, outbox)
    requires if id in jobs then j.outcome == jobs[id].outcome && j.hasInbox == jobs[id].hasInbox else j.outcome.None?
    ensures CompletionsOk(jobs[id := j], outbox)
  {
    assert id in jobs ==> CompletionOk(jobs[id], id, outbox);
  }

  /** A job that ends: its outcome and its completion appear together. */
  lemma EndKeepsCompletions(jobs: map<Id, Job>, outbox: map<Id, Completion>, id: Id, j: Job, o: Outcome, now: int)
    requires CompletionsOk(jobs, outbox) && id in jobs && jobs[id].outcome.None?
    requires j.outcome == Some(o) && j.hasInbox == jobs[id].hasInbox
    ensures CompletionsOk(jobs[id := j], WithCompletion(outbox, id, jobs[id], o, now))
    ensures Extends(outbox, WithCompletion(outbox, id, jobs[id], o, now))
  {
    assert CompletionOk(jobs[id], id, outbox);
    var rows, after := jobs[id := j], WithCompletion(outbox, id, jobs[id], o, now);
    forall k | k in rows
      ensures CompletionOk(rows[k], k, after)
    {
      assert CompletionOk(jobs[k], k, outbox);
    }
  }

  lemma EndKeeps(s: System, id: Id, j: Job, o: Outcome)
    requires Inv(s) && id in s.jobs && s.jobs[id].outcome.None?
    requires RowOk(j, id, s.leases, s.claims) && Moves(s.jobs[id], j) && j.outcome == Some(o)
    ensures Inv(s.(jobs := s.jobs[id := j], outbox := WithCompletion(s.outbox, id, s.jobs[id], o, s.now)))
    ensures JobsMove(s.jobs, s.jobs[id := j])
  {
    PutKeepsRows(s.jobs, s.leases, s.claims, id, j);
    EndKeepsCompletions(s.jobs, s.outbox, id, j, o, s.now);
    ExtendingKeepsDelivery(s.outbox, WithCompletion(s.outbox, id, s.jobs[id], o, s.now), s.inbox, s.publishers);
  }

  lemma PutKeeps(s: System, id: Id, j: Job)
    requires Inv(s) && id in s.jobs && RowOk(j, id, s.leases, s.claims) && Moves(s.jobs[id], j)
    requires j.outcome == s.jobs[id].outcome
    ensures Inv(s.(jobs := s.jobs[id := j])) && JobsMove(s.jobs, s.jobs[id := j])
  {
    PutKeepsRows(s.jobs, s.leases, s.claims, id, j);
    PutKeepsCompletions(s.jobs, s.outbox, id, j);
  }

  lemma CreateKeeps(s: System, id: Id, j: Job)
    requires Inv(s)
    ensures Inv(Create(s, id, j)) && JobsMove(s.jobs, Create(s, id, j).jobs)
  {
    if id !in s.jobs && NewJob(j) {
      var claims := s.claims[id := 0];
      assert RowsOk(s.jobs, s.leases, claims) by {
        assert forall k :: k in s.jobs ==> RowOk(s.jobs[k], k, s.leases, s.claims);
      }
      PutKeepsRows(s.jobs, s.leases, claims, id, j);
      PutKeepsCompletions(s.jobs, s.outbox, id, j);
    }
  }

  /** A fresh token and one more claim leave every other row as it was. */
  lemma LeaseKeepsRows(jobs: map<Id, Job>, leases: map<Token, Id>, claims: map<Id, nat>, id: Id, token: Token, j: Job)
    requires RowsOk(jobs, leases, claims) && id in jobs && token !in leases && id in claims
    requires RowOk(j, id, leases[token := id], claims[id := claims[id] + 1]) && Moves(jobs[id], j)
    ensures RowsOk(jobs[id := j], leases[token := id], claims[id := claims[id] + 1]) && JobsMove(jobs, jobs[id := j])
  {
    var moreLeases, moreClaims := leases[token := id], claims[id := claims[id] + 1];
    forall k | k in jobs && k != id
      ensures RowOk(jobs[k], k, moreLeases, moreClaims)
    {
      assert RowOk(jobs[k], k, leases, claims);
    }
  }

  lemma ClaimedRowOk(j: Job, id: Id, token: Token, leaseMs: int, now: int, leases: map<Token, Id>, claims: map<Id, nat>)
    requires RowOk(j, id, leases, claims) && Claimable(j, now) && token !in leases
    ensures RowOk(ClaimedJob(j, token, now, leaseMs), id, leases[token := id], claims[id := claims[id] + 1])
    ensures Moves(j, ClaimedJob(j, token, now, leaseMs)) && ClaimedJob(j, token, now, leaseMs).outcome == j.outcome
  {
  }

  lemma ClaimKeeps(s: System, w: Id, id: Id, token: Token, leaseMs: int)
    requires Inv(s)
    ensures Inv(Claim(s, w, id, token, leaseMs)) && JobsMove(s.jobs, Claim(s, w, id, token, leaseMs).jobs)
  {
    var after := Claim(s, w, id, token, leaseMs);
    if after != s {
      ClaimedRowOk(s.jobs[id], id, token, leaseMs, s.now, s.leases, s.claims);
      LeaseKeepsRows(s.jobs, s.leases, s.claims, id, token, after.jobs[id]);
      PutKeepsCompletions(s.jobs, s.outbox, id, after.jobs[id]);
    }
  }

  lemma ExtendedRowOk(j: Job, id: Id, lease: Lease, leases: map<Token, Id>, claims: map<Id, nat>)
    requires RowOk(j, id, leases, claims) && j.lease.Some? && j.lease.value.token == lease.token
    ensures RowOk(j.(lease := Some(lease)), id, leases, claims) && Moves(j, j.(lease := Some(lease)))
  {
  }

  lemma HeartbeatKeeps(s: System, w: Id, leaseMs: int)
    requires Inv(s)
    ensures Inv(Heartbeat(s, w, leaseMs)) && JobsMove(s.jobs, Heartbeat(s, w, leaseMs).jobs)
  {
    if w in s.workers {
      var Worker(id, token, _, _) := s.workers[w];
      if id in s.jobs && s.jobs[id].status == Running && Holds(s.jobs[id].lease, token, s.now) {
        ExtendedRowOk(s.jobs[id], id, Lease(token, s.now + leaseMs), s.leases, s.claims);
        PutKeeps(s, id, s.jobs[id].(lease := Some(Lease(token, s.now + leaseMs))));
      } else {
        PutWorker(s, w, s.workers[w].(leaseActive := false));
      }
    }
  }

  lemma RecordKeeps(s: System, id: Id, token: Token, o: Outcome)
    requires Inv(s)
    ensures Inv(Record(s, id, token, o)) && JobsMove(s.jobs, Record(s, id, token, o).jobs)
  {
    if FinishResult(s.jobs, id, token, o, s.now) == Applied {
      assert RowOk(s.jobs[id], id, s.leases, s.claims);
      EndKeeps(s, id, Ended(s.jobs[id], o, Some(token)), o);
    }
  }

  lemma CancelKeeps(s: System, id: Id, reason: string)
    requires Inv(s)
    ensures Inv(Cancel(s, id, reason)) && JobsMove(s.jobs, Cancel(s, id, reason).jobs)
  {
    if CancelResult(s.jobs, id) == Applied {
      assert RowOk(s.jobs[id], id, s.leases, s.claims);
      EndKeeps(s, id, Ended(s.jobs[id], CancelledWith(reason), s.jobs[id].finishedToken), CancelledWith(reason));
    }
  }

  lemma RetryKeeps(s: System, id: Id, token: Token, o: Outcome, delayMs: int)
    requires Inv(s)
    ensures Inv(Retry(s, id, token, o, delayMs)) && JobsMove(s.jobs, Retry(s, id, token, o, delayMs).jobs)
  {
    if CanRetry(s.jobs, id, token, s.now) && o.FailedWith? {
      assert RowOk(s.jobs[id], id, s.leases, s.claims);
      var j := RetriedJob(s.jobs[id], o, s.now, delayMs);
      if s.jobs[id].attempt >= s.jobs[id].maxAttempts {
        EndKeeps(s, id, j, o);
      } else {
        PutKeeps(s, id, j);
      }
    }
  }

  /** Publishers move a completion along; they make none and change no outcome. */
  lemma PutKeepsOutbox(s: System, id: Id, c: Completion)
    requires Inv(s) && id in s.outbox && c.outcome == s.outbox[id].outcome && c.attempt <= OUTBOX_ATTEMPTS
    requires c.delivered ==> id in s.inbox
    ensures Inv(s.(outbox := s.outbox[id := c]))
  {
    var outbox := s.outbox[id := c];
    forall k | k in s.jobs
      ensures CompletionOk(s.jobs[k], k, outbox)
    {
      assert CompletionOk(s.jobs[k], k, s.outbox);
    }
    forall w | w in s.publishers
      ensures PublisherOk(s.publishers[w], outbox, s.inbox)
    {
      assert PublisherOk(s.publishers[w], s.outbox, s.inbox);
    }
  }

  lemma AttemptWithin(s: System, id: Id)
    requires Inv(s) && id in s.outbox
    ensures s.outbox[id].attempt <= OUTBOX_ATTEMPTS
  {
    assert CompletionOk(s.jobs[id], id, s.outbox);
  }

  lemma DeliverableIsNew(s: System, id: Id)
    requires id in s.outbox && Deliverable(s.outbox[id], s.now)
    ensures !s.outbox[id].delivered && s.outbox[id].attempt < OUTBOX_ATTEMPTS
  {
  }

  lemma PutPublisher(s: System, w: Id, p: Publisher)
    requires Inv(s) && PublisherOk(p, s.outbox, s.inbox)
    ensures Inv(s.(publishers := s.publishers[w := p]))
  {
  }

  lemma DropPublisher(s: System, w: Id)
    requires Inv(s)
    ensures Inv(s.(publishers := s.publishers - {w}))
  {
  }

  lemma PutWorker(s: System, w: Id, p: Worker)
    requires Inv(s) && p.token in s.leases && s.leases[p.token] == p.job
    ensures Inv(s.(workers := s.workers[w := p]))
  {
  }

  lemma DropWorker(s: System, w: Id)
    requires Inv(s)
    ensures Inv(s.(workers := s.workers - {w}))
  {
  }

  /** A completion moves along and a publisher takes it or lets it go. */
  lemma HandOverKeeps(s: System, id: Id, c: Completion, w: Id, p: Publisher)
    requires Inv(s) && id in s.outbox && c.outcome == s.outbox[id].outcome && c.attempt <= OUTBOX_ATTEMPTS
    requires !c.delivered && p.job == id && p.completion == c.outcome && !p.injected
    ensures Inv(s.(outbox := s.outbox[id := c], publishers := s.publishers[w := p]))
  {
    PutKeepsOutbox(s, id, c);
    PutPublisher(s.(outbox := s.outbox[id := c]), w, p);
  }

  lemma LetGoKeeps(s: System, id: Id, c: Completion, w: Id)
    requires Inv(s) && id in s.outbox && c.outcome == s.outbox[id].outcome && c.attempt == s.outbox[id].attempt
    requires c.delivered ==> id in s.inbox
    ensures Inv(s.(outbox := s.outbox[id := c], publishers := s.publishers - {w}))
  {
    AttemptWithin(s, id);
    PutKeepsOutbox(s, id, c);
    DropPublisher(s.(outbox := s.outbox[id := c]), w);
  }

  lemma ClaimOutboxKeeps(s: System, w: Id, id: Id, token: Token, leaseMs: int)
    requires Inv(s)
    ensures Inv(ClaimOutbox(s, w, id, token, leaseMs))
  {
    if id in s.outbox && Deliverable(s.outbox[id], s.now) && w !in s.publishers {
      var c := s.outbox[id];
      var claimed := c.(lease := Some(Lease(token, s.now + leaseMs)), attempt := c.attempt + 1);
      DeliverableIsNew(s, id);
      var taken := Publisher(id, token, c.outcome, false);
      HandOverKeeps(s, id, claimed, w, taken);
      assert ClaimOutbox(s, w, id, token, leaseMs) == s.(outbox := s.outbox[id := claimed], publishers := s.publishers[w := taken]);
    }
  }

  lemma AddKeepsInbox(outbox: map<Id, Completion>, inbox: map<Id, Outcome>, publishers: map<Id, Publisher>, id: Id)
    requires DeliveryOk(outbox, inbox, publishers) && id in outbox
    ensures DeliveryOk(outbox, inbox[id := outbox[id].outcome], publishers)
  {
    forall w | w in publishers
      ensures PublisherOk(publishers[w], outbox, inbox[id := outbox[id].outcome])
    {
      assert PublisherOk(publishers[w], outbox, inbox);
    }
  }

  lemma InjectKeeps(s: System, w: Id)
    requires Inv(s)
    ensures Inv(Inject(s, w))
  {
    if w in s.publishers {
      var p := s.publishers[w];
      assert PublisherOk(p, s.outbox, s.inbox);
      AddKeepsInbox(s.outbox, s.inbox, s.publishers, p.job);
      var after := s.(inbox := if p.job in s.inbox then s.inbox else s.inbox[p.job := p.completion]);
      PutPublisher(after, w, p.(injected := true));
    }
  }

  lemma CompleteKeeps(s: System, w: Id)
    requires Inv(s)
    ensures Inv(Complete(s, w))
  {
    if MayAcknowledge(s, w) && s.publishers[w].injected {
      var id := s.publishers[w].job;
      assert PublisherOk(s.publishers[w], s.outbox, s.inbox);
      LetGoKeeps(s, id, s.outbox[id].(delivered := true, lease := None), w);
    }
  }

  lemma RetryOutboxKeeps(s: System, w: Id, delayMs: int)
    requires Inv(s)
    ensures Inv(RetryOutbox(s, w, delayMs))
  {
    if MayAcknowledge(s, w) {
      var id := s.publishers[w].job;
      var after := s.outbox[id].(nextAttemptAt := s.now + delayMs, lease := None);
      LetGoKeeps(s, id, after, w);
      assert RetryOutbox(s, w, delayMs) == s.(outbox := s.outbox[id := after], publishers := s.publishers - {w});
    }
  }

  lemma FinishKeeps(s: System, w: Id, o: Outcome, throws: bool)
    requires Inv(s)
    ensures Inv(Finish(s, w, o, throws)) && JobsMove(s.jobs, Finish(s, w, o, throws).jobs)
  {
    if w in s.workers && !s.workers[w].inCatch && !o.CancelledWith? {
      var p := s.workers[w];
      RecordKeeps(s, p.job, p.token, o);
      PutWorker(Record(s, p.job, p.token, o), w, p.(inCatch := true));
      DropWorker(Record(s, p.job, p.token, o), w);
    }
  }

  lemma CatchKeeps(s: System, w: Id, error: string, code: string)
    requires Inv(s)
    ensures Inv(Catch(s, w, error, code)) && JobsMove(s.jobs, Catch(s, w, error, code).jobs)
  {
    if w in s.workers && s.workers[w].inCatch {
      var p := s.workers[w];
      RecordKeeps(s, p.job, p.token, FailedWith(error, code));
      DropWorker(Record(s, p.job, p.token, FailedWith(error, code)), w);
      DropWorker(s, w);
    }
  }

  lemma SweepAndClaimKeep(s: System, w: Id, id: Id, token: Token, leaseMs: int)
    requires Inv(s)
    ensures var after := Claim(SweepExhausted(s), w, id, token, leaseMs); Inv(after) && JobsMove(s.jobs, after.jobs)
  {
    SweepKeeps(s);
    ClaimKeeps(SweepExhausted(s), w, id, token, leaseMs);
    MoveTwice(s.jobs, SweepExhausted(s).jobs, Claim(SweepExhausted(s), w, id, token, leaseMs).jobs);
  }

  lemma PublisherStepKeeps(s: System, step: Step)
    requires Inv(s) && OfPublishers(step)
    ensures Inv(Apply(s, step)) && Apply(s, step).jobs == s.jobs
  {
    match step
    case ToClaimOutbox(w, pick, token, ms) => ClaimOutboxKeeps(s, w, pick, token, ms);
    case ToInject(w) => InjectKeeps(s, w);
    case ToComplete(w) => CompleteKeeps(s, w);
    case ToRetryOutbox(w, delay) => RetryOutboxKeeps(s, w, delay);
    case ToStopPublisher(w) => DropPublisher(s, w);
  }

  lemma WorkerStepKeeps(s: System, step: Step)
    requires Inv(s)
    requires step.ToHeartbeat? || step.ToFinish? || step.ToThrow? || step.ToCatch? || step.ToStop?
    ensures Inv(Apply(s, step)) && JobsMove(s.jobs, Apply(s, step).jobs)
  {
    match step
    case ToHeartbeat(w, ms) => HeartbeatKeeps(s, w, ms);
    case ToFinish(w, o, throws) => FinishKeeps(s, w, o, throws);
    case ToCatch(w, error, code) => CatchKeeps(s, w, error, code);
    case ToThrow(w) =>
      if w in s.workers {
        PutWorker(s, w, s.workers[w].(inCatch := true));
      }
    case ToStop(w) => DropWorker(s, w);
  }

  lemma StepKeeps(s: System, step: Step)
    requires Inv(s)
    ensures Inv(Apply(s, step)) && JobsMove(s.jobs, Apply(s, step).jobs)
  {
    match step
    case ToTick(to) => assert Inv(s.(now := to));
    case ToCreate(id, j) => CreateKeeps(s, id, j);
    case ToClaim(w, pick, token, ms) => SweepAndClaimKeep(s, w, pick, token, ms);
    case ByCancel(id, reason) => CancelKeeps(s, id, reason);
    case ByRetry(id, token, error, code, delay) => RetryKeeps(s, id, token, FailedWith(error, code), delay);
    case ToHeartbeat(_, _) => WorkerStepKeeps(s, step);
    case ToFinish(_, _, _) => WorkerStepKeeps(s, step);
    case ToThrow(_) => WorkerStepKeeps(s, step);
    case ToCatch(_, _, _) => WorkerStepKeeps(s, step);
    case ToStop(_) => WorkerStepKeeps(s, step);
    case _ => PublisherStepKeeps(s, step);
  }

  lemma {:induction false} RunKeeps(s: System, steps: seq<Step>)
    requires Inv(s)
    ensures Inv(Run(s, steps)) && JobsMove(s.jobs, Run(s, steps).jobs)
    decreases |steps|
  {
    if steps != [] {
      StepKeeps(s, steps[0]);
      RunKeeps(Apply(s, steps[0]), steps[1..]);
      MoveTwice(s.jobs, Apply(s, steps[0]).jobs, Run(s, steps).jobs);
    }
  }

  lemma {:induction false} RunSplit(s: System, a: seq<Step>, b: seq<Step>)
    ensures Run(s, a + b) == Run(Run(s, a), b)
    decreases |a|
  {
    if a == [] {
      assert a + b == b;
    } else {
      assert (a + b)[0] == a[0] && (a + b)[1..] == a[1..] + b;
      RunSplit(Apply(s, a[0]), a[1..], b);
    }
  }

  lemma ClaimsAreKept(s: System)
    requires Inv(s)
    ensures s.jobs.Keys <= s.claims.Keys
  {
    assert forall id :: id in s.jobs ==> RowOk(s.jobs[id], id, s.leases, s.claims);
  }

  // ---- In place ----

  /** Workers and publishers in front of one repository and one inbox. */
  class Cluster {
    const repository: Repository
    var now: int
    var inbox: map<Id, Outcome>
    var workers: map<Id, Worker>
    var publishers: map<Id, Publisher>
    var leases: map<Token, Id>
    ghost var claims: map<Id, nat>

    ghost function Contents(): System
      reads this, repository
    {
      System(now, repository.jobs, repository.outbox, inbox, workers, publishers, leases, claims)
    }

    constructor (repository: Repository, now: int)
      ensures this.repository == repository
      ensures Contents() == System(now, repository.jobs, repository.outbox, map[], map[], map[], map[],
                                   map id | id in repository.jobs :: repository.jobs[id].attempt)
    {
      this.repository, this.now, inbox, workers, publishers, leases := repository, now, map[], map[], map[], map[];
      claims := map id | id in repository.jobs :: repository.jobs[id].attempt;
    }

    /** `executeOne` up to the claim; a worker that is busy, or has no fresh token, only sweeps. */
    method ClaimJob(w: Id, pick: Id, token: Token, leaseMs: int)
      requires repository.jobs.Keys <= claims.Keys
      modifies this, repository
      ensures Contents() == Claim(SweepExhausted(old(Contents())), w, pick, token, leaseMs)
    {
      if w in workers || token in leases {
        var _ := repository.FailExpiredMaxAttempts(now);
      } else {
        var lease := repository.Claim(pick, token, now, leaseMs);
        if lease.Some? {
          workers := workers[w := Worker(pick, token, true, false)];
          leases := leases[token := pick];
          claims := claims[pick := claims[pick] + 1];
        }
      }
    }

    method Beat(w: Id, leaseMs: int)
      modifies this, repository
      ensures Contents() == Heartbeat(old(Contents()), w, leaseMs)
    {
      if w in workers {
        var active := repository.Heartbeat(workers[w].job, workers[w].token, now, leaseMs);
        if !active {
          workers := workers[w := workers[w].(leaseActive := false)];
        }
      }
    }

    method FinishJob(w: Id, o: Outcome, throws: bool)
      modifies this, repository
      ensures Contents() == Finish(old(Contents()), w, o, throws)
    {
      if w in workers && !workers[w].inCatch && !o.CancelledWith? {
        var p := workers[w];
        var _ := repository.Finish(p.job, p.token, o, now);
        workers := if throws then workers[w := p.(inCatch := true)] else workers - {w};
      }
    }

    method CatchError(w: Id, error: string, code: string)
      modifies this, repository
      ensures Contents() == Catch(old(Contents()), w, error, code)
    {
      if w in workers && workers[w].inCatch {
        if workers[w].leaseActive {
          var _ := repository.Finish(workers[w].job, workers[w].token, FailedWith(error, code), now);
        }
        workers := workers - {w};
      }
    }

    method PerformJobStep(step: Step)
      requires repository.jobs.Keys <= claims.Keys && !OfPublishers(step)
      modifies this, repository
      ensures Contents() == Apply(old(Contents()), step)
    {
      match step {
        case ToTick(to) =>
          if to >= now {
            now := to;
          }
        case ToCreate(id, job) =>
          if id !in repository.jobs && NewJob(job) {
            repository.jobs := repository.jobs[id := job];
            claims := claims[id := 0];
          }
        case ToClaim(w, pick, token, ms) => ClaimJob(w, pick, token, ms);
        case ToHeartbeat(w, ms) => Beat(w, ms);
        case ToFinish(w, o, throws) => FinishJob(w, o, throws);
        case ToThrow(w) =>
          if w in workers {
            workers := workers[w := workers[w].(inCatch := true)];
          }
        case ToCatch(w, error, code) => CatchError(w, error, code);
        case ToStop(w) => workers := workers - {w};
        case ByCancel(id, reason) =>
          var _ := repository.Cancel(id, reason, now);
        case ByRetry(id, token, error, code, delay) =>
          var _ := repository.Retry(id, token, error, code, now, delay);
      }
    }

    /** `publishOne`: claim, inject, acknowledge or put back. */
    method PerformOutboxStep(step: Step)
      requires OfPublishers(step)
      modifies this, repository`outbox
      ensures Contents() == Apply(old(Contents()), step)
    {
      match step {
        case ToClaimOutbox(w, pick, token, ms) =>
          if w !in publishers {
            var completion := repository.ClaimOutbox(pick, token, now, ms);
            if completion.Some? {
              publishers := publishers[w := Publisher(pick, token, completion.value, false)];
            }
          }
        case ToInject(w) =>
          if w in publishers {
            var p := publishers[w];
            if p.job !in inbox {
              inbox := inbox[p.job := p.completion];
            }
            publishers := publishers[w := p.(injected := true)];
          }
        case ToComplete(w) =>
          if w in publishers && publishers[w].injected {
            var done := repository.CompleteOutbox(publishers[w].job, publishers[w].token, now);
            if done {
              publishers := publishers - {w};
            }
          }
        case ToRetryOutbox(w, delay) =>
          if w in publishers {
            var back := repository.RetryOutbox(publishers[w].job, publishers[w].token, now, delay);
            if back {
              publishers := publishers - {w};
            }
          }
        case ToStopPublisher(w) => publishers := publishers - {w};
      }
    }

    /** The results below are about what this method leaves in the repository and the inbox. */
    method Execute(steps: seq<Step>)
      requires Inv(Contents())
      modifies this, repository
      ensures Contents() == Run(old(Contents()), steps) && Inv(Contents())
    {
      var i := 0;
      while i < |steps|
        invariant 0 <= i <= |steps| && Inv(Contents())
        invariant Run(Contents(), steps[i..]) == Run(old(Contents()), steps)
      {
        assert steps[i..][0] == steps[i] && steps[i..][1..] == steps[i + 1..];
        StepKeeps(Contents(), steps[i]);
        var step := steps[i];
        if OfPublishers(step) {
          PerformOutboxStep(step);
        } else {
          ClaimsAreKept(Contents());
          PerformJobStep(step);
        }
        i := i + 1;
      }
    }
  }

  // ---- Main results ----

  /** A recorded outcome never changes, and neither do the status and the lease it was recorded with. */
  lemma OutcomeIsFinal(s: System, before: seq<Step>, after: seq<Step>, id: Id)
    requires Init(s) && id in Run(s, before).jobs && Run(s, before).jobs[id].outcome.Some?
    ensures id in Run(s, before + after).jobs
    ensures var a, b := Run(s, before).jobs[id], Run(s, before + after).jobs[id];
            b.outcome == a.outcome && b.status == a.status == StatusOf(a.outcome.value) && b.finishedToken == a.finishedToken
  {
    RunKeeps(s, before);
    RunSplit(s, before, after);
    RunKeeps(Run(s, before), after);
  }

  /** A lease ends one job at most. */
  lemma OneOutcomePerLease(s: System, steps: seq<Step>, a: Id, b: Id)
    requires Init(s) && a in Run(s, steps).jobs && b in Run(s, steps).jobs
    requires Run(s, steps).jobs[a].finishedToken.Some?
    requires Run(s, steps).jobs[a].finishedToken == Run(s, steps).jobs[b].finishedToken
    ensures a == b
  {
    RunKeeps(s, steps);
  }

  /** Who may end a job: the worker whose lease is current and has not run out, with its own outcome;
      the sweep, once the last lease has run out; or a user who cancels it. */
  predicate MayEnd(s: System, step: Step, id: Id, j: Job)
    requires id in s.jobs
  {
    match step
    case ToFinish(w, o, _) => HoldsJob(s, w, id) && j.outcome == Some(o) && j.finishedToken == Some(s.workers[w].token)
    case ToCatch(w, error, code) =>
      HoldsJob(s, w, id) && j.outcome == Some(FailedWith(error, code)) && j.finishedToken == Some(s.workers[w].token)
    case ByRetry(k, token, error, code, _) =>
      k == id && Holds(s.jobs[id].lease, token, s.now) && j.outcome == Some(FailedWith(error, code))
    case ToClaim(_, _, _, _) => Exhausted(s.jobs[id], s.now) && j.outcome == Some(EXPIRED)
    case ByCancel(k, reason) => k == id && j.outcome == Some(CancelledWith(reason))
    case _ => false
  }

  predicate HoldsJob(s: System, w: Id, id: Id)
    requires id in s.jobs
  {
    w in s.workers && s.workers[w].job == id && Holds(s.jobs[id].lease, s.workers[w].token, s.now)
  }

  lemma OnlyTheHolderRecords(s: System, k: Id, token: Token, o: Outcome, id: Id)
    requires id in s.jobs && JobOk(s.jobs[id]) && s.jobs[id].outcome.None?
    requires id in Record(s, k, token, o).jobs && Record(s, k, token, o).jobs[id].outcome.Some?
    ensures k == id && Holds(s.jobs[id].lease, token, s.now)
    ensures Record(s, k, token, o).jobs[id].outcome == Some(o) && Record(s, k, token, o).jobs[id].finishedToken == Some(token)
  {
  }

  lemma OthersEndNothing(s: System, step: Step, id: Id)
    requires id in s.jobs && s.jobs[id].outcome.None?
    requires !step.ToFinish? && !step.ToCatch? && !step.ToClaim? && !step.ByCancel? && !step.ByRetry?
    ensures id in Apply(s, step).jobs && Apply(s, step).jobs[id].outcome.None?
  {
  }

  lemma OnlyTheHolderEnds(s: System, step: Step, id: Id)
    requires id in s.jobs && JobOk(s.jobs[id]) && s.jobs[id].outcome.None?
    requires id in Apply(s, step).jobs && Apply(s, step).jobs[id].outcome.Some?
    ensures MayEnd(s, step, id, Apply(s, step).jobs[id])
  {
    match step
    case ToFinish(w, o, _) => OnlyTheHolderRecords(s, s.workers[w].job, s.workers[w].token, o, id);
    case ToCatch(w, error, code) =>
      OnlyTheHolderRecords(s, s.workers[w].job, s.workers[w].token, FailedWith(error, code), id);
    case ToClaim(_, _, _, _) =>
    case ByCancel(_, _) =>
    case ByRetry(_, _, _, _, _) =>
    case _ =>
      OthersEndNothing(s, step, id);
      assert false;
  }

  /** Every recorded outcome goes back to one step of the run that was entitled to record it: the worker
      of `finishedToken` held the lease at that moment and recorded its own outcome, or the sweep or a user
      ended the job. */
  lemma {:induction false} EveryOutcomeHasItsRecorder(s: System, steps: seq<Step>, id: Id) returns (n: nat)
    requires Init(s) && id in Run(s, steps).jobs && Run(s, steps).jobs[id].outcome.Some?
    ensures n < |steps| && id in Run(s, steps[..n]).jobs && Run(s, steps[..n]).jobs[id].outcome.None?
    ensures MayEnd(Run(s, steps[..n]), steps[n], id, Run(s, steps).jobs[id])
    decreases |steps|
  {
    var front, last := steps[..|steps| - 1], steps[|steps| - 1];
    assert steps == front + [last] && [last][1..] == [];
    RunSplit(s, front, [last]);
    RunKeeps(s, front);
    var before := Run(s, front);
    assert Run(before, [last]) == Apply(before, last);
    if id in before.jobs && before.jobs[id].outcome.Some? {
      n := EveryOutcomeHasItsRecorder(s, front, id);
      StepKeeps(before, last);
      assert steps[..n] == front[..n] && Moves(before.jobs[id], Run(s, steps).jobs[id]);
    } else {
      n := |front|;
      OnlyOldJobsEnd(before, last, id);
      assert RowOk(before.jobs[id], id, before.leases, before.claims);
      OnlyTheHolderEnds(before, last, id);
    }
  }

  /** A job does not end in the step that creates it. */
  lemma OnlyOldJobsEnd(s: System, step: Step, id: Id)
    requires id in Apply(s, step).jobs && Apply(s, step).jobs[id].outcome.Some?
    ensures id in s.jobs
  {
  }

  /** A job is executed as often as it was claimed, and no more than its attempts allow: once, for
      capability orchestration. */
  lemma ExecutionsAreBounded(s: System, steps: seq<Step>, id: Id)
    requires Init(s) && id in Run(s, steps).jobs
    ensures var after := Run(s, steps);
            id in after.claims && after.claims[id] == after.jobs[id].attempt <= after.jobs[id].maxAttempts
  {
    RunKeeps(s, steps);
  }

  /** The step leases completion `id` to a publisher. */
  predicate Takes(s: System, step: Step, id: Id) {
    step.ToClaimOutbox? && step.pick == id && id in s.outbox && Deliverable(s.outbox[id], s.now) && step.worker !in s.publishers
  }

  function TimesTaken(s: System, steps: seq<Step>, id: Id): nat
    decreases |steps|
  {
    if steps == [] then 0
    else (if Takes(s, steps[0], id) then 1 else 0) + TimesTaken(Apply(s, steps[0]), steps[1..], id)
  }

  function AttemptOf(outbox: map<Id, Completion>, id: Id): nat {
    if id in outbox then outbox[id].attempt else 0
  }

  /** A completion starts at attempt 0; jobs that end later do not touch it. */
  lemma OnlyPublishersCount(s: System, step: Step, id: Id)
    requires !OfPublishers(step)
    ensures AttemptOf(Apply(s, step).outbox, id) == AttemptOf(s.outbox, id)
    ensures id in s.outbox ==> id in Apply(s, step).outbox && Apply(s, step).outbox[id] == s.outbox[id]
  {
    match step
    case ToClaim(w, pick, token, ms) => SweepCountsNothing(s, id);
    case ToFinish(w, o, _) =>
      if w in s.workers {
        RecordCountsNothing(s, s.workers[w].job, s.workers[w].token, o, id);
      }
    case ToCatch(w, error, code) =>
      if w in s.workers {
        RecordCountsNothing(s, s.workers[w].job, s.workers[w].token, FailedWith(error, code), id);
      }
    case _ =>
  }

  lemma RecordCountsNothing(s: System, k: Id, token: Token, o: Outcome, id: Id)
    ensures AttemptOf(Record(s, k, token, o).outbox, id) == AttemptOf(s.outbox, id)
    ensures id in s.outbox ==> id in Record(s, k, token, o).outbox && Record(s, k, token, o).outbox[id] == s.outbox[id]
  {
  }

  lemma SweepCountsNothing(s: System, id: Id)
    ensures AttemptOf(SweepExhausted(s).outbox, id) == AttemptOf(s.outbox, id)
    ensures id in s.outbox ==> id in SweepExhausted(s).outbox && SweepExhausted(s).outbox[id] == s.outbox[id]
  {
  }

  lemma StepCountsAttempts(s: System, step: Step, id: Id)
    ensures AttemptOf(Apply(s, step).outbox, id) == AttemptOf(s.outbox, id) + if Takes(s, step, id) then 1 else 0
  {
    if !OfPublishers(step) {
      OnlyPublishersCount(s, step, id);
    }
  }

  lemma {:induction false} RunCountsAttempts(s: System, steps: seq<Step>, id: Id)
    ensures AttemptOf(Run(s, steps).outbox, id) == AttemptOf(s.outbox, id) + TimesTaken(s, steps, id)
    decreases |steps|
  {
    if steps != [] {
      StepCountsAttempts(s, steps[0], id);
      RunCountsAttempts(Apply(s, steps[0]), steps[1..], id);
    }
  }

  /** A completion goes to a publisher at most ten times, and once acknowledged never again. */
  lemma DeliveriesAreBounded(s: System, steps: seq<Step>, id: Id)
    requires Init(s)
    ensures TimesTaken(s, steps, id) <= 10
    ensures id in Run(s, steps).outbox && Run(s, steps).outbox[id].delivered ==>
              forall more :: TimesTaken(Run(s, steps), more, id) == 0
  {
    RunKeeps(s, steps);
    RunCountsAttempts(s, steps, id);
    if id in Run(s, steps).outbox {
      AttemptWithin(Run(s, steps), id);
      if Run(s, steps).outbox[id].delivered {
        forall more
          ensures TimesTaken(Run(s, steps), more, id) == 0
        {
          DeliveredStays(Run(s, steps), more, id);
        }
      }
    }
  }

  lemma StepKeepsDelivered(s: System, step: Step, id: Id)
    requires id in s.outbox && s.outbox[id].delivered
    ensures id in Apply(s, step).outbox && Apply(s, step).outbox[id].delivered && !Takes(s, step, id)
  {
    if OfPublishers(step) {
    } else {
      OnlyPublishersCount(s, step, id);
    }
  }

  lemma {:induction false} DeliveredStays(s: System, steps: seq<Step>, id: Id)
    requires id in s.outbox && s.outbox[id].delivered
    ensures TimesTaken(s, steps, id) == 0
    decreases |steps|
  {
    if steps != [] {
      StepKeepsDelivered(s, steps[0], id);
      DeliveredStays(Apply(s, steps[0]), steps[1..], id);
    }
  }

  /** Whatever the inbox holds for a job is the job's own final outcome, and a completion is
      acknowledged only when the inbox holds it. */
  lemma DeliveredOutcomeIsFinal(s: System, steps: seq<Step>, id: Id)
    requires Init(s)
    ensures var after := Run(s, steps);
            && (id in after.inbox ==> id in after.jobs && after.jobs[id].outcome == Some(after.inbox[id]))
            && (id in after.outbox && after.outbox[id].delivered ==> id in after.inbox)
            && (id in after.jobs ==> (id in after.outbox <==> after.jobs[id].outcome.Some? && after.jobs[id].hasInbox))
  {
    RunKeeps(s, steps);
    var after := Run(s, steps);
    if id in after.jobs {
      assert CompletionOk(after.jobs[id], id, after.outbox);
    }
  }
}

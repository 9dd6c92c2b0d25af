/** Any number of workers executing one run, with the writes of its users in between.  Nothing but a
    guarded claim and the key of the attempt rows keeps them apart: there is no lease. */
module AutomationRuns {
  import opened Option
  import opened Backoff
  import opened AutomationTables

  type Id = nat

  /** A worker that has read the run, and one that has claimed it. */
  datatype Worker =
    | Reader(snapshot: Run, retryLimit: nat)
    | Executor(attempt: nat, limit: nat)

  datatype System = System(
    run: Run, attempts: map<nat, RunStatus>, workers: map<Id, Worker>,
    claims: nat, scheduled: seq<nat>, waits: seq<int>, manualRetries: nat)  // history: no step reads the last four

  datatype Step =
    | ToRead(worker: Id, retryLimit: nat, goesOn: bool)
    | ToCancel(worker: Id)
    | ToFailAuthority(worker: Id)
    | ToClaim(worker: Id)
    | ToFinish(worker: Id, result: Result, now: int)
    | ToStop(worker: Id)
    | ByUserCancel
    | ByUserRetry
    | ByUserApprove
    | ByApprovalExpiry

  /** `goesOn`: the automation is active and the run approved as its policy asks. */
  function Read(s: System, w: Id, retryLimit: nat, goesOn: bool): System {
    if w !in s.workers && Claimable(s.run.status) && goesOn
    then s.(workers := s.workers[w := Reader(s.run, retryLimit)]) else s
  }

  predicate Reads(s: System, w: Id) {
    w in s.workers && s.workers[w].Reader?
  }

  predicate Live(s: System, w: Id) {
    w in s.workers && s.workers[w].Executor?
  }

  function Cancel(s: System, w: Id): System {
    if Reads(s, w) && s.workers[w].snapshot.cancelRequested
    then s.(run := s.run.(status := Cancelled, completed := true), workers := s.workers - {w}) else s
  }

  function FailAuthority(s: System, w: Id): System {
    if Reads(s, w) && !s.workers[w].snapshot.cancelRequested
    then s.(run := s.run.(status := Failed, retryable := false, completed := true), workers := s.workers - {w}) else s
  }

  function Claim(s: System, w: Id): System {
    if !Reads(s, w) || s.workers[w].snapshot.cancelRequested then s else
    var attempt := s.workers[w].snapshot.attempt + 1;
    if Claimable(s.run.status) && attempt !in s.attempts
    then s.(run := ClaimedRun(s.run, attempt), attempts := s.attempts[attempt := Running],
            workers := s.workers[w := Executor(attempt, s.workers[w].retryLimit)], claims := s.claims + 1)
    else s.(workers := s.workers - {w})
  }

  function Finish(s: System, w: Id, r: Result, now: int): System {
    if !Live(s, w) then s else
    var Executor(attempt, limit) := s.workers[w];
    var after := FinishedRun(s.run, attempt, limit, r, now);
    s.(run := after,
       attempts := if attempt in s.attempts then s.attempts[attempt := Projected(r)] else s.attempts,
       workers := s.workers - {w},
       scheduled := if after.status == RetryScheduled then s.scheduled + [attempt] else s.scheduled,
       waits := s.waits + Wait(after, now))
  }

  /** How long the row makes the next attempt wait, if it was scheduled again. */
  function Wait(run: Run, now: int): seq<int> {
    if run.status == RetryScheduled && run.nextAttemptAt.Some? then [run.nextAttemptAt.value - now] else []
  }

  function Apply(s: System, step: Step): System {
    match step
    case ToRead(w, limit, goesOn) => Read(s, w, limit, goesOn)
    case ToCancel(w) => Cancel(s, w)
    case ToFailAuthority(w) => FailAuthority(s, w)
    case ToClaim(w) => Claim(s, w)
    case ToFinish(w, r, now) => Finish(s, w, r, now)
    case ToStop(w) => s.(workers := s.workers - {w})
    case ByUserCancel => if s.run.completed then s else s.(run := s.run.(cancelRequested := true))
    case ByUserRetry =>
      if s.run.retryable && s.run.status in {Failed, TimedOut}
      then s.(run := s.run.(status := Queued, nextAttemptAt := None, completed := false), manualRetries := s.manualRetries + 1)
      else s
    case ByUserApprove => if s.run.status == AwaitingApproval then s.(run := s.run.(status := Queued)) else s
    case ByApprovalExpiry =>
      if s.run.status == AwaitingApproval then s.(run := s.run.(status := Cancelled, completed := true)) else s
  }

  function RunSteps(s: System, steps: seq<Step>): System
    decreases |steps|
  {
    if steps == [] then s else RunSteps(Apply(s, steps[0]), steps[1..])
  }

  predicate Init(s: System) {
    && s.run.status in {Queued, AwaitingApproval} && s.run.attempt == 0 && !s.run.retryable
    && s.attempts == map[] && s.workers == map[] && s.claims == 0 && s.scheduled == [] && s.waits == []
    && s.manualRetries == 0
  }

  /** Workers in front of one store. */
  class Fleet {
    const store: Store
    var workers: map<Id, Worker>
    ghost var claims: nat
    ghost var scheduled: seq<nat>
    ghost var waits: seq<int>
    ghost var manualRetries: nat

    ghost function Contents(): System
      reads this, store
    {
      System(store.run, store.attempts, workers, claims, scheduled, waits, manualRetries)
    }

    constructor (store: Store)
      ensures this.store == store && Contents() == System(store.run, store.attempts, map[], 0, [], [], 0)
    {
      this.store, workers, claims, scheduled, waits, manualRetries := store, map[], 0, [], [], 0;
    }

    method ClaimRun(w: Id)
      modifies this, store
      ensures Contents() == Claim(old(Contents()), w)
    {
      if w in workers && workers[w].Reader? && !workers[w].snapshot.cancelRequested {
        var Reader(snapshot, limit) := workers[w];
        var claimed := store.Claim(snapshot.attempt + 1);
        if claimed {
          workers, claims := workers[w := Executor(snapshot.attempt + 1, limit)], claims + 1;
        } else {
          workers := workers - {w};
        }
      }
    }

    method FinishRun(w: Id, r: Result, now: int)
      modifies this, store
      ensures Contents() == Finish(old(Contents()), w, r, now)
    {
      if w in workers && workers[w].Executor? {
        var Executor(attempt, limit) := workers[w];
        var retry := store.Finish(attempt, limit, r, now);
        workers := workers - {w};
        if retry {
          scheduled := scheduled + [attempt];
        }
        waits := waits + Wait(store.run, now);
      }
    }

    method Perform(step: Step)
      modifies this, store
      ensures Contents() == Apply(old(Contents()), step)
    {
      match step {
        case ToRead(w, limit, goesOn) =>
          if w !in workers && Claimable(store.run.status) && goesOn {
            workers := workers[w := Reader(store.run, limit)];
          }
        case ToCancel(w) =>
          if w in workers && workers[w].Reader? && workers[w].snapshot.cancelRequested {
            store.Cancel();
            workers := workers - {w};
          }
        case ToFailAuthority(w) =>
          if w in workers && workers[w].Reader? && !workers[w].snapshot.cancelRequested {
            store.FailAuthority();
            workers := workers - {w};
          }
        case ToClaim(w) => ClaimRun(w);
        case ToFinish(w, r, now) => FinishRun(w, r, now);
        case ToStop(w) => workers := workers - {w};
        case ByUserCancel => store.RequestCancel();
        case ByUserRetry =>
          var retried := store.RetryByHand();
          if retried {
            manualRetries := manualRetries + 1;
          }
        case ByUserApprove => store.SettleApproval(true);
        case ByApprovalExpiry => store.SettleApproval(false);
      }
    }

    /** The results below are about what this method leaves in the store. */
    method Execute(steps: seq<Step>)
      modifies this, store
      ensures Contents() == RunSteps(old(Contents()), steps)
    {
      var i := 0;
      while i < |steps|
        invariant 0 <= i <= |steps|
        invariant RunSteps(Contents(), steps[i..]) == RunSteps(old(Contents()), steps)
      {
        assert steps[i..][0] == steps[i] && steps[i..][1..] == steps[i + 1..];
        Perform(steps[i]);
        i := i + 1;
      }
    }
  }

  // ---- One executor at a time ----

  ghost predicate Exclusive(s: System) {
    && (forall n :: n in s.attempts <==> 1 <= n <= s.run.attempt)
    && s.claims == s.run.attempt
    && (forall w :: Reads(s, w) ==> s.workers[w].snapshot.attempt <= s.run.attempt)
    && (forall w :: Live(s, w) ==>
          s.workers[w].attempt == s.run.attempt >= 1 && s.run.status in {Running, Cancelled, Failed} && !s.run.retryable)
    && (forall v, w :: Live(s, v) && Live(s, w) ==> v == w)
  }

  lemma ClaimKeepsExclusive(s: System, w: Id)
    requires Exclusive(s)
    ensures Exclusive(Claim(s, w))
  {
    var after := Claim(s, w);
    assert forall v :: Live(after, v) && v != w ==> Live(s, v);
    assert forall v :: Reads(after, v) ==> Reads(s, v);
  }

  lemma FinishKeepsExclusive(s: System, w: Id, r: Result, now: int)
    requires Exclusive(s)
    ensures Exclusive(Finish(s, w, r, now))
  {
    var after := Finish(s, w, r, now);
    assert forall v :: Live(after, v) ==> Live(s, v);
    assert forall v :: Reads(after, v) ==> Reads(s, v);
    if Live(s, w) {
      assert forall v :: Live(after, v) ==> Live(s, v) && v != w;
    }
  }

  lemma ReaderKeepsExclusive(s: System, step: Step)
    requires Exclusive(s) && (step.ToRead? || step.ToCancel? || step.ToFailAuthority? || step.ToStop?)
    ensures Exclusive(Apply(s, step))
  {
    assert forall v :: Live(Apply(s, step), v) ==> Live(s, v);
  }

  lemma UserKeepsExclusive(s: System, step: Step)
    requires Exclusive(s)
    requires step.ByUserCancel? || step.ByUserRetry? || step.ByUserApprove? || step.ByApprovalExpiry?
    ensures Exclusive(Apply(s, step))
  {
    assert forall v :: Live(Apply(s, step), v) <==> Live(s, v);
    assert forall v :: Reads(Apply(s, step), v) <==> Reads(s, v);
  }

  lemma StepKeepsExclusive(s: System, step: Step)
    requires Exclusive(s)
    ensures Exclusive(Apply(s, step))
  {
    match step
    case ToClaim(w) => ClaimKeepsExclusive(s, w);
    case ToFinish(w, r, now) => FinishKeepsExclusive(s, w, r, now);
    case ToRead(_, _, _) => ReaderKeepsExclusive(s, step);
    case ToCancel(_) => ReaderKeepsExclusive(s, step);
    case ToFailAuthority(_) => ReaderKeepsExclusive(s, step);
    case ToStop(_) => ReaderKeepsExclusive(s, step);
    case _ => UserKeepsExclusive(s, step);
  }

  lemma {:induction false} RunKeepsExclusive(s: System, steps: seq<Step>)
    requires Exclusive(s)
    ensures Exclusive(RunSteps(s, steps))
    decreases |steps|
  {
    if steps != [] {
      StepKeepsExclusive(s, steps[0]);
      RunKeepsExclusive(Apply(s, steps[0]), steps[1..]);
    }
  }

  /** A run never has two live executors, and while it has one nobody can claim it. */
  lemma OneExecutor(s: System, steps: seq<Step>, v: Id, w: Id)
    requires Init(s) && Live(RunSteps(s, steps), v) && Live(RunSteps(s, steps), w)
    ensures v == w && !Claimable(RunSteps(s, steps).run.status)
  {
    RunKeepsExclusive(s, steps);
  }

  /** There is one attempt row for each successful claim, numbered from 1 without a gap, so a claim
      from a stale read fails. */
  lemma AttemptRowsAreTheClaims(s: System, steps: seq<Step>, n: nat)
    requires Init(s)
    ensures var after := RunSteps(s, steps);
            && after.claims == after.run.attempt
            && (n in after.attempts <==> 1 <= n <= after.claims)
  {
    RunKeepsExclusive(s, steps);
  }

  lemma StaleClaimsFail(s: System, steps: seq<Step>, w: Id)
    requires Init(s) && Reads(RunSteps(s, steps), w)
    requires RunSteps(s, steps).workers[w].snapshot.attempt < RunSteps(s, steps).run.attempt
    ensures Claim(RunSteps(s, steps), w).run == RunSteps(s, steps).run
    ensures Claim(RunSteps(s, steps), w).claims == RunSteps(s, steps).claims
  {
    RunKeepsExclusive(s, steps);
  }

  // ---- How often, and with how much delay ----

  /** No worker ever reads a retry limit above `r`; the limit may be edited during the run. */
  predicate LimitAtMost(steps: seq<Step>, r: nat) {
    forall i :: 0 <= i < |steps| && steps[i].ToRead? ==> steps[i].retryLimit <= r
  }

  predicate Increasing(ns: seq<nat>) {
    forall i, j :: 0 <= i < j < |ns| ==> ns[i] < ns[j]
  }

  /** The row of each retry waited as long as its attempt asks for. */
  predicate Waited(ns: seq<nat>, waits: seq<int>) {
    |waits| == |ns| && forall i :: 0 <= i < |ns| ==> waits[i] == DelaySeconds(ns[i]) * 1_000
  }

  ghost predicate Bounded(s: System, r: nat) {
    && Exclusive(s)
    && (forall w :: w in s.workers ==> (if s.workers[w].Reader? then s.workers[w].retryLimit else s.workers[w].limit) <= r)
    && s.run.attempt <= r + 1 + s.manualRetries
    && (s.run.status == AwaitingApproval ==> s.run.attempt == 0)
    && (s.run.status == Queued ==> s.run.attempt <= r + s.manualRetries)
    && (s.run.status == RetryScheduled ==> s.run.attempt <= r)
    && Increasing(s.scheduled) && Waited(s.scheduled, s.waits)
    && (forall i :: 0 <= i < |s.scheduled| ==> 1 <= s.scheduled[i] <= s.run.attempt && s.scheduled[i] <= r)
    && (forall w :: Live(s, w) && s.scheduled != [] ==> s.scheduled[|s.scheduled| - 1] < s.run.attempt)
  }

  /** Without a retry by hand every attempt but the last was scheduled again, in order. */
  ghost predicate Unaided(s: System) {
    s.manualRetries == 0 ==>
      && (forall i :: 0 <= i < |s.scheduled| ==> s.scheduled[i] == i + 1)
      && |s.scheduled| <= s.run.attempt <= |s.scheduled| + 1
      && (s.run.status in {Queued, AwaitingApproval} ==> s.run.attempt == 0)
      && (s.run.status == RetryScheduled ==> |s.scheduled| == s.run.attempt)
      && (forall w :: Live(s, w) ==> |s.scheduled| + 1 == s.run.attempt)
  }

  /** A claim that succeeds was made from an up-to-date read, while nobody else was executing. */
  lemma ClaimIsNext(s: System, w: Id)
    requires Exclusive(s) && Claim(s, w).claims != s.claims
    ensures Claim(s, w).run == ClaimedRun(s.run, s.run.attempt + 1) && Claimable(s.run.status)
    ensures forall v :: Live(Claim(s, w), v) ==> v == w
  {
    assert forall v :: Live(Claim(s, w), v) && v != w ==> Live(s, v);
  }

  lemma ClaimKeepsBounded(s: System, w: Id, r: nat)
    requires Bounded(s, r)
    ensures Bounded(Claim(s, w), r)
  {
    ClaimKeepsExclusive(s, w);
    if Claim(s, w).claims != s.claims {
      ClaimIsNext(s, w);
    } else {
      assert forall v :: Live(Claim(s, w), v) ==> Live(s, v);
    }
  }

  lemma ClaimKeepsUnaided(s: System, w: Id)
    requires Exclusive(s) && Unaided(s)
    ensures Unaided(Claim(s, w))
  {
    if Claim(s, w).claims != s.claims {
      ClaimIsNext(s, w);
    } else {
      assert forall v :: Live(Claim(s, w), v) ==> Live(s, v);
    }
  }

  lemma FinishKeepsBounded(s: System, w: Id, res: Result, now: int, r: nat)
    requires Bounded(s, r)
    ensures Bounded(Finish(s, w, res, now), r)
  {
    FinishKeepsExclusive(s, w, res, now);
    var after := Finish(s, w, res, now);
    if Live(s, w) {
      assert forall v :: Live(after, v) ==> Live(s, v) && v != w;
    }
  }

  lemma FinishKeepsUnaided(s: System, w: Id, res: Result, now: int)
    requires Exclusive(s) && Unaided(s)
    ensures Unaided(Finish(s, w, res, now))
  {
    var after := Finish(s, w, res, now);
    if Live(s, w) {
      assert forall v :: Live(after, v) ==> Live(s, v) && v != w;
    }
  }

  /** Steps that neither claim nor finish: no attempt begins or ends, and `queued` comes only from a
      user. */
  lemma OthersKeepBounded(s: System, step: Step, r: nat)
    requires Bounded(s, r) && (step.ToRead? ==> step.retryLimit <= r)
    requires !step.ToClaim? && !step.ToFinish?
    ensures Bounded(Apply(s, step), r)
  {
    StepKeepsExclusive(s, step);
    assert forall v :: Live(Apply(s, step), v) ==> Live(s, v);
  }

  lemma OthersKeepUnaided(s: System, step: Step)
    requires Unaided(s) && !step.ToClaim? && !step.ToFinish?
    ensures Unaided(Apply(s, step))
  {
    assert forall v :: Live(Apply(s, step), v) ==> Live(s, v);
  }

  lemma StepKeepsBounded(s: System, step: Step, r: nat)
    requires Bounded(s, r) && Unaided(s) && (step.ToRead? ==> step.retryLimit <= r)
    ensures Bounded(Apply(s, step), r) && Unaided(Apply(s, step))
  {
    match step
    case ToClaim(w) =>
      ClaimKeepsBounded(s, w, r);
      ClaimKeepsUnaided(s, w);
    case ToFinish(w, res, now) =>
      FinishKeepsBounded(s, w, res, now, r);
      FinishKeepsUnaided(s, w, res, now);
    case _ =>
      OthersKeepBounded(s, step, r);
      OthersKeepUnaided(s, step);
  }

  lemma {:induction false} RunKeepsBounded(s: System, steps: seq<Step>, r: nat)
    requires Bounded(s, r) && Unaided(s) && LimitAtMost(steps, r)
    ensures Bounded(RunSteps(s, steps), r) && Unaided(RunSteps(s, steps))
    decreases |steps|
  {
    if steps != [] {
      StepKeepsBounded(s, steps[0], r);
      assert LimitAtMost(steps[1..], r);
      RunKeepsBounded(Apply(s, steps[0]), steps[1..], r);
    }
  }

  /** A run executes at most `r + 1` times, and once more for each retry by hand. */
  lemma ExecutionsAreBounded(s: System, steps: seq<Step>, r: nat)
    requires Init(s) && LimitAtMost(steps, r)
    ensures RunSteps(s, steps).claims <= r + 1 + RunSteps(s, steps).manualRetries
  {
    RunKeepsBounded(s, steps, r);
  }

  /** Seconds of delay, over all the retries that were scheduled. */
  function ScheduledDelay(ns: seq<nat>): nat {
    if ns == [] then 0 else ScheduledDelay(ns[..|ns| - 1]) + DelaySeconds(ns[|ns| - 1])
  }

  lemma {:induction false} DistinctDelays(ns: seq<nat>, r: nat)
    requires Increasing(ns) && forall i :: 0 <= i < |ns| ==> 1 <= ns[i] <= r
    ensures ScheduledDelay(ns) <= TotalDelay(r)
    decreases |ns|
  {
    if ns != [] {
      var last := ns[|ns| - 1];
      DistinctDelays(ns[..|ns| - 1], last - 1);
      TotalDelayMonotone(last, r);
    }
  }

  function Sum(ms: seq<int>): int {
    if ms == [] then 0 else Sum(ms[..|ms| - 1]) + ms[|ms| - 1]
  }

  lemma {:induction false} WaitsAddUp(ns: seq<nat>, waits: seq<int>)
    requires Waited(ns, waits)
    ensures Sum(waits) == ScheduledDelay(ns) * 1_000
    decreases |ns|
  {
    if ns != [] {
      WaitsAddUp(ns[..|ns| - 1], waits[..|waits| - 1]);
    }
  }

  /** Retries by hand included, what the row made the run wait for its own retries adds up to a bounded time. */
  lemma DelayIsBounded(s: System, steps: seq<Step>, r: nat)
    requires Init(s) && LimitAtMost(steps, r)
    ensures var waited := Sum(RunSteps(s, steps).waits);
            && (r <= 7 ==> waited <= 30_000 * (Pow2(r) - 1))
            && (r >= 7 ==> waited <= 3_810_000 + 3_600_000 * (r - 7))
  {
    RunKeepsBounded(s, steps, r);
    DistinctDelays(RunSteps(s, steps).scheduled, r);
    WaitsAddUp(RunSteps(s, steps).scheduled, RunSteps(s, steps).waits);
    TotalDelayClosedForm(r);
  }

  lemma {:induction false} ConsecutiveDelays(ns: seq<nat>)
    requires forall i :: 0 <= i < |ns| ==> ns[i] == i + 1
    ensures ScheduledDelay(ns) == TotalDelay(|ns|)
    decreases |ns|
  {
    if ns != [] {
      ConsecutiveDelays(ns[..|ns| - 1]);
    }
  }

  /** Without a retry by hand that time is exactly the one for all attempts before the one now running. */
  lemma DelayIsExact(s: System, steps: seq<Step>, r: nat, w: Id)
    requires Init(s) && LimitAtMost(steps, r) && RunSteps(s, steps).manualRetries == 0
    requires Live(RunSteps(s, steps), w)
    ensures var n, waited := RunSteps(s, steps).run.attempt, Sum(RunSteps(s, steps).waits);
            && n >= 1
            && (n <= 8 ==> waited == 30_000 * (Pow2(n - 1) - 1))
            && (n >= 8 ==> waited == 3_810_000 + 3_600_000 * (n - 8))
  {
    RunKeepsBounded(s, steps, r);
    ConsecutiveDelays(RunSteps(s, steps).scheduled);
    WaitsAddUp(RunSteps(s, steps).scheduled, RunSteps(s, steps).waits);
    TotalDelayClosedForm(RunSteps(s, steps).run.attempt - 1);
  }
}

/** What each statement on an automation run leaves in its row and attempt rows, column by column, in any state that
    workers and users can bring about. */
module AutomationEffects {
  import opened Option
  import opened Backoff
  import opened AutomationTables
  import opened AutomationRuns

  /** Some run leads here. */
  ghost predicate Reachable(t: System) {
    exists s, steps :: Init(s) && RunSteps(s, steps) == t
  }

  lemma ReachableFits(t: System)
    requires Reachable(t)
    ensures Exclusive(t)
  {
    var s, steps :| Init(s) && RunSteps(s, steps) == t;
    RunKeepsExclusive(s, steps);
  }

  /** Only a timeout and a failure that says so may be tried again. */
  predicate MayRepeat(r: Result) {
    r == DidTimeOut || r == DidFail(true)
  }

  /** The attempt ends as its target did. */
  predicate Says(status: RunStatus, r: Result) {
    match r
    case DidSucceed => status == Succeeded
    case DidFail(_) => status == Failed
    case WasCancelled => status == Cancelled
    case DidTimeOut => status == TimedOut
    case RanOutOfBudget => status == BudgetExhausted
  }

  /** The final write: the run is scheduled again while the limit allows, min(3600, 30 * 2^(n-1)) seconds after attempt
      n, or ends as the target did; its attempt row ends either way. */
  lemma FinishLeaves(t: System, w: Id, r: Result, now: int)
    requires Reachable(t) && Live(t, w)
    ensures var after, n := Apply(t, ToFinish(w, r, now)), t.workers[w].attempt;
            && n == t.run.attempt == after.run.attempt >= 1 && after.run.cancelRequested == t.run.cancelRequested
            && w !in after.workers && after.run.retryable == MayRepeat(r)
            && (if MayRepeat(r) && n <= t.workers[w].limit
                then after.run.status == RetryScheduled && !after.run.completed
                     && after.run.nextAttemptAt == Some(now + Min(3_600, 30 * Pow2(n - 1)) * 1_000)
                else Says(after.run.status, r) && after.run.completed && after.run.nextAttemptAt == None)
            && after.attempts.Keys == t.attempts.Keys && n in t.attempts && Says(after.attempts[n], r)
            && (forall k :: k in t.attempts && k != n ==> after.attempts[k] == t.attempts[k])
  {
    ReachableFits(t);
  }

  /** A claim from an up-to-date read goes through exactly when the run is queued or scheduled again; one from an
      outdated read never does. */
  lemma ClaimLeaves(t: System, w: Id)
    requires Reachable(t) && Reads(t, w) && !t.workers[w].snapshot.cancelRequested
    ensures var after, n := Apply(t, ToClaim(w)), t.workers[w].snapshot.attempt + 1;
            if (t.run.status == Queued || t.run.status == RetryScheduled) && t.workers[w].snapshot.attempt == t.run.attempt
            then after.run == t.run.(status := Running, attempt := n, nextAttemptAt := None, retryable := false)
                 && n !in t.attempts && after.attempts == t.attempts[n := Running]
                 && Live(after, w) && after.workers[w].attempt == n && after.workers[w].limit == t.workers[w].retryLimit
            else after.run == t.run && after.attempts == t.attempts && w !in after.workers
  {
    ReachableFits(t);
  }

  /** What ends a run that is not executed, and what users may do to it. */
  lemma CancelLeaves(t: System, w: Id)
    requires Reads(t, w) && t.workers[w].snapshot.cancelRequested
    ensures var after := Apply(t, ToCancel(w));
            after.run == t.run.(status := Cancelled, completed := true) && after.attempts == t.attempts && w !in after.workers
    ensures Apply(t, ToFailAuthority(w)) == t && Apply(t, ToClaim(w)) == t
  {
  }

  lemma FailAuthorityLeaves(t: System, w: Id)
    requires Reads(t, w) && !t.workers[w].snapshot.cancelRequested
    ensures var after := Apply(t, ToFailAuthority(w));
            && after.run == t.run.(status := Failed, retryable := false, completed := true) && after.attempts == t.attempts
            && w !in after.workers
    ensures Apply(t, ToCancel(w)) == t
  {
  }

  lemma UsersLeave(t: System)
    ensures Apply(t, ByUserCancel).run == if t.run.completed then t.run else t.run.(cancelRequested := true)
    ensures Apply(t, ByUserRetry).run
         == if t.run.retryable && (t.run.status == Failed || t.run.status == TimedOut)
            then t.run.(status := Queued, nextAttemptAt := None, completed := false) else t.run
    ensures Apply(t, ByUserApprove).run == if t.run.status == AwaitingApproval then t.run.(status := Queued) else t.run
    ensures Apply(t, ByApprovalExpiry).run
         == if t.run.status == AwaitingApproval then t.run.(status := Cancelled, completed := true) else t.run
  {
  }
}

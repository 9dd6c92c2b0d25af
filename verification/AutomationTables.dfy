/** One automation run: its row, its attempt rows, and what each statement of the worker and of the
    routes beside it does to them. */
module AutomationTables {
  import opened Option
  import opened Backoff

  datatype RunStatus =
    | Queued | AwaitingApproval | Running | RetryScheduled
    | Succeeded | Failed | Cancelled | TimedOut | BudgetExhausted

  datatype Run = Run(
    status: RunStatus, attempt: nat, retryable: bool, cancelRequested: bool,
    nextAttemptAt: Option<int>, completed: bool)

  /** What `executeTarget` resolves to. */
  datatype Result = DidSucceed | DidFail(mayRetry: bool) | WasCancelled | DidTimeOut | RanOutOfBudget

  /** `projectAutomationExecutionResult`. */
  function Projected(r: Result): (status: RunStatus)
    ensures status !in {Queued, AwaitingApproval, Running, RetryScheduled}
  {
    match r
    case DidSucceed => Succeeded
    case DidFail(_) => Failed
    case WasCancelled => Cancelled
    case DidTimeOut => TimedOut
    case RanOutOfBudget => BudgetExhausted
  }

  predicate Retryable(r: Result) {
    r.DidTimeOut? || (r.DidFail? && r.mayRetry)
  }

  predicate Retries(r: Result, attempt: nat, retryLimit: nat) {
    Retryable(r) && attempt <= retryLimit
  }

  predicate Claimable(s: RunStatus) {
    s == Queued || s == RetryScheduled
  }

  function ClaimedRun(run: Run, attempt: nat): Run {
    run.(status := Running, attempt := attempt, nextAttemptAt := None, retryable := false)
  }

  function FinishedRun(run: Run, attempt: nat, retryLimit: nat, r: Result, now: int): Run {
    if Retries(r, attempt, retryLimit)
    then run.(status := RetryScheduled, retryable := true, completed := false,
              nextAttemptAt := Some(now + DelaySeconds(attempt) * 1_000))
    else run.(status := Projected(r), retryable := Retryable(r), completed := true, nextAttemptAt := None)
  }

  /** The rows of one run, updated in place. */
  class Store {
    var run: Run
    var attempts: map<nat, RunStatus>  // unique on (run, attempt)

    /** The claiming transaction.  It does nothing when the status has moved on, and throws when the
        attempt number, which comes from an earlier read, has been used already. */
    method Claim(attempt: nat) returns (claimed: bool)
      modifies this
      ensures claimed == (Claimable(old(run).status) && attempt !in old(attempts))
      ensures run == if claimed then ClaimedRun(old(run), attempt) else old(run)
      ensures attempts == if claimed then old(attempts)[attempt := Running] else old(attempts)
    {
      claimed := false;
      if run.status == Queued || run.status == RetryScheduled {
        var saved := run;
        run := run.(status := Running, attempt := attempt);
        run := run.(nextAttemptAt := None, retryable := false);
        if attempt in attempts {
          run := saved;
        } else {
          attempts := attempts[attempt := Running];
          claimed := true;
        }
      }
    }

    /** The final transaction: both rows by id, whatever the run has become. */
    method Finish(attempt: nat, retryLimit: nat, r: Result, now: int) returns (retry: bool)
      modifies this
      ensures retry == Retries(r, attempt, retryLimit)
      ensures run == FinishedRun(old(run), attempt, retryLimit, r, now)
      ensures attempts == if attempt in old(attempts) then old(attempts)[attempt := Projected(r)] else old(attempts)
    {
      retry := Retryable(r) && attempt <= retryLimit;
      var delaySeconds := Min(3_600, 30 * Pow2(Max(0, attempt - 1)));
      var status := Projected(r);
      if attempt in attempts {
        attempts := attempts[attempt := status];
      }
      if retry {
        status := RetryScheduled;
      }
      run := run.(status := status, retryable := Retryable(r));
      run := run.(nextAttemptAt := if retry then Some(now + delaySeconds * 1_000) else None, completed := !retry);
    }

    method Cancel()
      modifies this`run
      ensures run == old(run).(status := Cancelled, completed := true)
    {
      run := run.(status := Cancelled, completed := true);
    }

    method FailAuthority()
      modifies this`run
      ensures run == old(run).(status := Failed, retryable := false, completed := true)
    {
      run := run.(status := Failed, retryable := false, completed := true);
    }

    /** DELETE on the run. */
    method RequestCancel()
      modifies this`run
      ensures run == if old(run).completed then old(run) else old(run).(cancelRequested := true)
    {
      if !run.completed {
        run := run.(cancelRequested := true);
      }
    }

    method RetryByHand() returns (retried: bool)
      modifies this`run
      ensures retried == (old(run).retryable && old(run).status in {Failed, TimedOut})
      ensures run == if retried then old(run).(status := Queued, nextAttemptAt := None, completed := false) else old(run)
    {
      retried := run.retryable && (run.status == Failed || run.status == TimedOut);
      if retried {
        run := run.(status := Queued, nextAttemptAt := None, completed := false);
      }
    }

    method SettleApproval(approved: bool)
      modifies this`run
      ensures run == if old(run).status != AwaitingApproval then old(run)
                     else if approved then old(run).(status := Queued)
                     else old(run).(status := Cancelled, completed := true)
    {
      if run.status == AwaitingApproval {
        run := if approved then run.(status := Queued) else run.(status := Cancelled, completed := true);
      }
    }
  }
}

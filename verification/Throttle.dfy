/** `createThrottle`: at most one execution per wait, and a trailing one for the calls in between. */
module Throttle {
  import opened Option

  /** The two captured variables; a pending timer is the time it is due. */
  datatype Vars = Vars(lastCall: int, timeout: Option<int>)

  const FRESH: Vars := Vars(0, None)

  function AfterCall(t: Vars, now: int, waitFor: int): Vars {
    if now - t.lastCall >= waitFor then t.(lastCall := now)
    else if t.timeout.None? then t.(timeout := Some(now + (waitFor - (now - t.lastCall))))
    else t
  }

  /** The object behind the returned function. */
  class Throttled {
    var lastCall: int
    var timeout: Option<int>

    function Captured(): Vars
      reads this
    {
      Vars(lastCall, timeout)
    }

    constructor ()
      ensures Captured() == FRESH
    {
      lastCall, timeout := 0, None;
    }

    /** `ran` says that `func` was executed at once. */
    method Call(now: int, waitFor: int) returns (ran: bool)
      modifies this
      ensures Captured() == AfterCall(old(Captured()), now, waitFor)
      ensures ran == (now - old(lastCall) >= waitFor)
    {
      ran := false;
      var timeSinceLastCall := now - lastCall;
      if timeSinceLastCall >= waitFor {
        lastCall := now;
        ran := true;
      } else if timeout.None? {
        var remainingTime := waitFor - timeSinceLastCall;
        timeout := Some(now + remainingTime);
      }
    }

    /** The timer's callback: `func` is executed. */
    method Fire(now: int)
      modifies this
      ensures Captured() == Vars(now, None)
    {
      lastCall := now;
      timeout := None;
    }

    method Clear()
      modifies this
      ensures Captured() == FRESH
    {
      if timeout.Some? {
        timeout := None;
      }
      lastCall := 0;
    }
  }

  // ---- A throttle in time ----

  /** `calls` and `runs` are the times of the calls and of the executions since the last `clear`. */
  datatype State = State(now: int, vars: Vars, calls: seq<int>, runs: seq<int>)

  datatype Step = ToTick(to: int) | ToCall | ToFire | ToClear

  /** A timer never fires early; how late it may fire is up to the run. */
  function Apply(s: State, step: Step, waitFor: int): State {
    match step
    case ToTick(to) => if to >= s.now then s.(now := to) else s
    case ToCall =>
      s.(vars := AfterCall(s.vars, s.now, waitFor), calls := s.calls + [s.now],
         runs := if s.now - s.vars.lastCall >= waitFor then s.runs + [s.now] else s.runs)
    case ToFire =>
      if s.vars.timeout.Some? && s.now >= s.vars.timeout.value
      then s.(vars := Vars(s.now, None), runs := s.runs + [s.now]) else s
    case ToClear => s.(vars := FRESH, calls := [], runs := [])
  }

  function Run(s: State, steps: seq<Step>, waitFor: int): State
    decreases |steps|
  {
    if steps == [] then s else Run(Apply(s, steps[0], waitFor), steps[1..], waitFor)
  }

  /** One throttle and the clock, with what has happened so far. */
  class Timeline {
    const throttle: Throttled
    const waitFor: int
    var now: int
    var calls: seq<int>
    var runs: seq<int>

    ghost function Contents(): State
      reads this, throttle
    {
      State(now, throttle.Captured(), calls, runs)
    }

    constructor (now: int, waitFor: int)
      ensures Contents() == State(now, FRESH, [], []) && this.waitFor == waitFor && fresh(throttle)
    {
      throttle := new Throttled();
      this.now, this.waitFor, calls, runs := now, waitFor, [], [];
    }

    method Perform(step: Step)
      modifies this, throttle
      ensures Contents() == Apply(old(Contents()), step, waitFor)
    {
      match step {
        case ToTick(to) =>
          if to >= now {
            now := to;
          }
        case ToCall =>
          var ran := throttle.Call(now, waitFor);
          calls := calls + [now];
          if ran {
            runs := runs + [now];
          }
        case ToFire =>
          if throttle.timeout.Some? && now >= throttle.timeout.value {
            throttle.Fire(now);
            runs := runs + [now];
          }
        case ToClear =>
          throttle.Clear();
          calls, runs := [], [];
      }
    }

    /** The results below are about what this method leaves. */
    method Execute(steps: seq<Step>)
      modifies this, throttle
      ensures Contents() == Run(old(Contents()), steps, waitFor)
    {
      var i := 0;
      while i < |steps|
        invariant 0 <= i <= |steps|
        invariant Run(Contents(), steps[i..], waitFor) == Run(old(Contents()), steps, waitFor)
      {
        assert steps[i..][0] == steps[i] && steps[i..][1..] == steps[i + 1..];
        Perform(steps[i]);
        i := i + 1;
      }
    }
  }

  /** Due timers fire on time, and before calls at the same instant. */
  predicate Punctual(s: State, step: Step) {
    s.vars.timeout.Some? ==>
      match step
      case ToTick(to) => to <= s.vars.timeout.value
      case ToCall => s.now < s.vars.timeout.value
      case _ => true
  }

  predicate PunctualRun(s: State, steps: seq<Step>, waitFor: int)
    decreases |steps|
  {
    steps != [] ==> Punctual(s, steps[0]) && PunctualRun(Apply(s, steps[0], waitFor), steps[1..], waitFor)
  }

  predicate Init(s: State) {
    s.now >= 0 && s.vars == FRESH && s.calls == [] && s.runs == []
  }

  // ---- What every step keeps ----

  ghost predicate Spaced(runs: seq<int>, waitFor: int) {
    forall i :: 0 < i < |runs| ==> runs[i] - runs[i - 1] >= waitFor
  }

  /** The last execution of this segment, or the start of time. */
  function LastRun(runs: seq<int>): int {
    if runs == [] then 0 else runs[|runs| - 1]
  }

  ghost predicate Inv(s: State, waitFor: int) {
    && s.vars.lastCall == LastRun(s.runs) && 0 <= s.vars.lastCall <= s.now
    && (s.vars.timeout.Some? ==> s.vars.timeout.value == s.vars.lastCall + waitFor && s.now <= s.vars.timeout.value)
    && Spaced(s.runs, waitFor)
    && (forall t :: t in s.calls ==> t <= s.now && Served(s, t, waitFor))
  }

  predicate Answers(e: int, t: int, waitFor: int) {
    t <= e <= t + waitFor
  }

  /** A call that an execution follows within the wait, or that the pending timer will serve in time. */
  ghost predicate Served(s: State, t: int, waitFor: int) {
    || (exists e :: e in s.runs && Answers(e, t, waitFor))
    || (s.vars.timeout.Some? && Answers(s.vars.timeout.value, t, waitFor))
  }

  lemma CallKeeps(s: State, waitFor: int)
    requires waitFor > 0 && Inv(s, waitFor) && Punctual(s, ToCall)
    ensures Inv(Apply(s, ToCall, waitFor), waitFor)
  {
    var after := Apply(s, ToCall, waitFor);
    forall t | t in after.calls
      ensures t <= after.now && Served(after, t, waitFor)
    {
      if t in s.calls {
        RunsGrow(s, after, t, waitFor);
      } else if s.now - s.vars.lastCall >= waitFor {
        assert s.now in after.runs && Answers(s.now, t, waitFor);
      }
    }
  }

  lemma RunsGrow(s: State, after: State, t: int, waitFor: int)
    requires Served(s, t, waitFor) && s.runs <= after.runs
    requires s.vars.timeout.Some? ==> after.vars.timeout == s.vars.timeout || s.vars.timeout.value in after.runs
    ensures Served(after, t, waitFor)
  {
    if e :| e in s.runs && Answers(e, t, waitFor) {
      assert e in after.runs;
    }
  }

  lemma FireKeeps(s: State, waitFor: int)
    requires waitFor > 0 && Inv(s, waitFor)
    ensures Inv(Apply(s, ToFire, waitFor), waitFor)
  {
    var after := Apply(s, ToFire, waitFor);
    forall t | t in after.calls
      ensures t <= after.now && Served(after, t, waitFor)
    {
      RunsGrow(s, after, t, waitFor);
    }
  }

  lemma StepKeeps(s: State, step: Step, waitFor: int)
    requires waitFor > 0 && Inv(s, waitFor) && Punctual(s, step)
    ensures Inv(Apply(s, step, waitFor), waitFor)
  {
    match step
    case ToCall => CallKeeps(s, waitFor);
    case ToFire => FireKeeps(s, waitFor);
    case ToTick(_) =>
      forall t | t in s.calls
        ensures Served(Apply(s, step, waitFor), t, waitFor)
      {
        RunsGrow(s, Apply(s, step, waitFor), t, waitFor);
      }
    case ToClear =>
  }

  lemma {:induction false} RunKeeps(s: State, steps: seq<Step>, waitFor: int)
    requires waitFor > 0 && Inv(s, waitFor) && PunctualRun(s, steps, waitFor)
    ensures Inv(Run(s, steps, waitFor), waitFor)
    decreases |steps|
  {
    if steps != [] {
      StepKeeps(s, steps[0], waitFor);
      RunKeeps(Apply(s, steps[0], waitFor), steps[1..], waitFor);
    }
  }

  // ---- Main results ----

  /** Two executions of one segment, next to each other or not, are at least the wait apart. */
  lemma {:induction false} RunsAreSpaced(s: State, steps: seq<Step>, waitFor: int, i: nat, j: nat)
    requires waitFor > 0 && Init(s) && PunctualRun(s, steps, waitFor) && i < j < |Run(s, steps, waitFor).runs|
    ensures Run(s, steps, waitFor).runs[j] - Run(s, steps, waitFor).runs[i] >= (j - i) * waitFor
    decreases j - i
  {
    RunKeeps(s, steps, waitFor);
    if i + 1 < j {
      RunsAreSpaced(s, steps, waitFor, i, j - 1);
      assert (j - i) * waitFor == (j - 1 - i) * waitFor + waitFor;
    } else {
      assert (j - i) * waitFor == waitFor;
    }
  }

  /** Every call is followed by an execution within the wait: no later than that, once the time has come
      and the due timer has fired. */
  lemma EveryCallIsFollowed(s: State, steps: seq<Step>, waitFor: int, t: int)
    requires waitFor > 0 && Init(s) && PunctualRun(s, steps, waitFor) && t in Run(s, steps, waitFor).calls
    requires var after := Run(s, steps, waitFor);
             after.now > t + waitFor || (after.now == t + waitFor && after.vars.timeout != Some(after.now))
    ensures exists e :: e in Run(s, steps, waitFor).runs && t <= e <= t + waitFor
  {
    RunKeeps(s, steps, waitFor);
    var after := Run(s, steps, waitFor);
    assert Served(after, t, waitFor);
    var e :| e in after.runs && Answers(e, t, waitFor);
  }

  lemma PendingTimerIsDue(s: State, steps: seq<Step>, waitFor: int)
    requires waitFor > 0 && Init(s) && PunctualRun(s, steps, waitFor) && Run(s, steps, waitFor).vars.timeout.Some?
    ensures var after := Run(s, steps, waitFor);
            after.vars.timeout.value == after.vars.lastCall + waitFor == LastRun(after.runs) + waitFor
  {
    RunKeeps(s, steps, waitFor);
  }

  // ---- Late timers ----

  /** No call comes while a timer is overdue. */
  predicate NotOvertaken(s: State, step: Step) {
    step == ToCall && s.vars.timeout.Some? ==> s.now < s.vars.timeout.value
  }

  predicate NeverOvertaken(s: State, steps: seq<Step>, waitFor: int)
    decreases |steps|
  {
    steps != [] ==> NotOvertaken(s, steps[0]) && NeverOvertaken(Apply(s, steps[0], waitFor), steps[1..], waitFor)
  }

  ghost predicate LateInv(s: State, waitFor: int) {
    && s.vars.lastCall == LastRun(s.runs) && s.vars.lastCall <= s.now && s.now >= 0
    && (s.vars.timeout.Some? ==> s.vars.timeout.value == s.vars.lastCall + waitFor)
    && Spaced(s.runs, waitFor)
  }

  lemma {:induction false} RunKeepsLate(s: State, steps: seq<Step>, waitFor: int)
    requires LateInv(s, waitFor) && NeverOvertaken(s, steps, waitFor)
    ensures LateInv(Run(s, steps, waitFor), waitFor)
    decreases |steps|
  {
    if steps != [] {
      RunKeepsLate(Apply(s, steps[0], waitFor), steps[1..], waitFor);
    }
  }

  /** However late timers fire, executions next to each other are at least the wait apart, as long as no call
      comes between the time a timer is due and the time it fires. */
  lemma LateTimersStaySpaced(s: State, steps: seq<Step>, waitFor: int)
    requires Init(s) && NeverOvertaken(s, steps, waitFor)
    ensures Spaced(Run(s, steps, waitFor).runs, waitFor)
  {
    RunKeepsLate(s, steps, waitFor);
  }

  /** What holds however late timers fire, and whatever comes in between. */
  ghost predicate LooseInv(s: State, waitFor: int) {
    && s.vars.lastCall == LastRun(s.runs) && s.vars.lastCall <= s.now && s.now >= 0
    && (s.vars.timeout.Some? ==> s.vars.timeout.value <= s.vars.lastCall + waitFor)
  }

  lemma {:induction false} RunKeepsLoose(s: State, steps: seq<Step>, waitFor: int)
    requires LooseInv(s, waitFor)
    ensures LooseInv(Run(s, steps, waitFor), waitFor)
    decreases |steps|
  {
    if steps != [] {
      RunKeepsLoose(Apply(s, steps[0], waitFor), steps[1..], waitFor);
    }
  }

  lemma {:induction false} RunLast(s: State, steps: seq<Step>, step: Step, waitFor: int)
    ensures Run(s, steps + [step], waitFor) == Apply(Run(s, steps, waitFor), step, waitFor)
    decreases |steps|
  {
    if steps == [] {
      assert [] + [step] == [step] && [step][1..] == [];
    } else {
      assert (steps + [step])[1..] == steps[1..] + [step];
      RunLast(Apply(s, steps[0], waitFor), steps[1..], step, waitFor);
    }
  }

  /** Step n of the run is a call that is executed although a timer is pending, and therefore overdue. */
  predicate Overtakes(s: State, steps: seq<Step>, waitFor: int, n: nat)
    requires n < |steps|
  {
    var before := Run(s, steps[..n], waitFor);
    && steps[n] == ToCall && before.vars.timeout.Some? && before.now >= before.vars.timeout.value
    && before.now - before.vars.lastCall >= waitFor
  }

  /** The timer that was pending before step n still is. */
  ghost predicate StillPending(s: State, steps: seq<Step>, waitFor: int, n: nat)
    requires n < |steps|
  {
    forall m :: n <= m <= |steps| ==> Run(s, steps[..m], waitFor).vars.timeout == Run(s, steps[..n], waitFor).vars.timeout
  }

  /** The last execution is later than the one the pending timer was set for: it overtook the timer. */
  lemma {:induction false} Overtaker(s: State, steps: seq<Step>, waitFor: int) returns (n: nat)
    requires Init(s)
    requires var after := Run(s, steps, waitFor);
             after.vars.timeout.Some? && after.vars.timeout.value != after.vars.lastCall + waitFor
    ensures n < |steps| && Overtakes(s, steps, waitFor, n) && StillPending(s, steps, waitFor, n)
    ensures Run(s, steps[..n], waitFor).now == Run(s, steps, waitFor).vars.lastCall
    decreases |steps|
  {
    var front, last := steps[..|steps| - 1], steps[|steps| - 1];
    assert steps == front + [last] && steps[..|steps|] == steps;
    RunLast(s, front, last, waitFor);
    RunKeepsLoose(s, front, waitFor);
    var before := Run(s, front, waitFor);
    if last == ToCall && before.now - before.vars.lastCall >= waitFor {
      n := |front|;
      assert steps[..n] == front;
    } else {
      n := Overtaker(s, front, waitFor);
      assert steps[..n] == front[..n];
      forall m | n <= m <= |steps|
        ensures Run(s, steps[..m], waitFor).vars.timeout == Run(s, steps[..n], waitFor).vars.timeout
      {
        if m < |steps| {
          assert steps[..m] == front[..m];
        } else {
          assert front[..|front|] == front;
        }
      }
    }
  }

  /** While a timer stays pending, the last execution only moves on. */
  lemma {:induction false} LastCallMovesOn(s: State, steps: seq<Step>, waitFor: int, n: nat, m: nat)
    requires Init(s) && n < m <= |steps| && Overtakes(s, steps, waitFor, n) && StillPending(s, steps, waitFor, n)
    ensures Run(s, steps[..m], waitFor).vars.lastCall >= Run(s, steps[..n], waitFor).now
    decreases m
  {
    var front, last := steps[..m - 1], steps[m - 1];
    assert steps[..m] == front + [last];
    RunLast(s, front, last, waitFor);
    RunKeepsLoose(s, front, waitFor);
    if n < m - 1 {
      LastCallMovesOn(s, steps, waitFor, n, m - 1);
      assert Run(s, steps[..m], waitFor).vars.timeout.Some?;
    }
  }

  /** The execution of a due timer comes too soon after the one before it exactly when that one was a call that
      overtook this very timer less than the wait ago. */
  lemma TooSoonExactlyWhenOvertaken(s: State, steps: seq<Step>, waitFor: int)
    requires Init(s) && waitFor > 0
    requires var before := Run(s, steps, waitFor); before.vars.timeout.Some? && before.now >= before.vars.timeout.value
    ensures var before := Run(s, steps, waitFor);
            var after := Apply(before, ToFire, waitFor);
            (LastRun(after.runs) - LastRun(before.runs) < waitFor
             <==> exists n: nat :: n < |steps| && Overtakes(s, steps, waitFor, n) && StillPending(s, steps, waitFor, n)
                                   && before.now < Run(s, steps[..n], waitFor).now + waitFor)
  {
    RunKeepsLoose(s, steps, waitFor);
    var before := Run(s, steps, waitFor);
    assert steps[..|steps|] == steps;
    if before.now - before.vars.lastCall < waitFor {
      var n := Overtaker(s, steps, waitFor);
    }
    forall n: nat | n < |steps| && Overtakes(s, steps, waitFor, n) && StillPending(s, steps, waitFor, n)
                    && before.now < Run(s, steps[..n], waitFor).now + waitFor
      ensures before.now - before.vars.lastCall < waitFor
    {
      LastCallMovesOn(s, steps, waitFor, n, |steps|);
    }
  }

  /** A call never is too soon. */
  lemma CallsAreNeverTooSoon(s: State, steps: seq<Step>, waitFor: int)
    requires Init(s) && |Apply(Run(s, steps, waitFor), ToCall, waitFor).runs| > |Run(s, steps, waitFor).runs|
    ensures LastRun(Apply(Run(s, steps, waitFor), ToCall, waitFor).runs) - LastRun(Run(s, steps, waitFor).runs) >= waitFor
  {
    RunKeepsLoose(s, steps, waitFor);
  }

  /** It happens: a call at the instant the timer is due runs first, and the timer right after it. */
  lemma OvertakenTimer(s: State, waitFor: int)
    requires Init(s) && waitFor > 0 && s.now >= waitFor
    ensures var waiting := Apply(Apply(s, ToCall, waitFor), ToCall, waitFor);
            var due := Apply(waiting, ToTick(s.now + waitFor), waitFor);
            Apply(Apply(due, ToCall, waitFor), ToFire, waitFor).runs == [s.now, s.now + waitFor, s.now + waitFor]
  {
    var waiting := Apply(Apply(s, ToCall, waitFor), ToCall, waitFor);
    assert waiting.runs == [s.now] && waiting.vars == Vars(s.now, Some(s.now + waitFor));
    var due := Apply(waiting, ToTick(s.now + waitFor), waitFor);
    assert Apply(due, ToCall, waitFor).runs == [s.now] + [s.now + waitFor];
  }
}

/** `PromiseChain`: tasks submitted to one chain, and the promises the chain links behind each other.
    Promise 0 resolves at once; task number i gets promise 2i + 1, which waits for promise 2i, and
    promise 2i + 2 catches its rejection. */
module PromiseChain {
  import opened Option

  type Value = string

  datatype Outcome = Fulfilled(value: Value) | Rejected(error: string)

  datatype Reaction =
    | Resolved
    | Then(started: bool)  // runs the task once `source` is fulfilled
    | Catch                // turns a rejection of `source` into undefined

  datatype Promise = Promise(source: nat, reaction: Reaction, outcome: Option<Outcome>)

  const UNDEFINED: Value := "undefined"

  /** `promise` is the captured variable; `own` holds what the tasks' own promises came to; `starts`
      lists the promises whose task was started, in that order. */
  datatype State = State(promises: seq<Promise>, promise: nat, own: map<nat, Outcome>, starts: seq<nat>)

  const EMPTY: State := State([Promise(0, Resolved, Some(Fulfilled(UNDEFINED)))], 0, map[], [])

  datatype Step =
    | ToSubmit
    | ToReact(p: nat)                  // the job queued on p when its source settled
    | ToEnd(p: nat, outcome: Outcome)  // the promise that p's task returned settles, or the task throws
    | ToAdopt(p: nat)                  // p takes over what its task came to

  function Submitted(s: State): State {
    var n := |s.promises|;
    s.(promises := s.promises + [Promise(s.promise, Then(false), None), Promise(n, Catch, None)], promise := n + 1)
  }

  predicate CanReact(s: State, p: nat) {
    && p < |s.promises| && s.promises[p].outcome.None? && s.promises[p].reaction in {Then(false), Catch}
    && s.promises[p].source < |s.promises| && s.promises[s.promises[p].source].outcome.Some?
  }

  predicate CanAdopt(s: State, p: nat) {
    p < |s.promises| && s.promises[p].outcome.None? && s.promises[p].reaction == Then(true) && p in s.own
  }

  predicate Running(s: State, p: nat) {
    p < |s.promises| && s.promises[p].reaction == Then(true) && p !in s.own
  }

  function Settle(s: State, p: nat, o: Outcome): State
    requires p < |s.promises|
  {
    s.(promises := s.promises[p := s.promises[p].(outcome := Some(o))])
  }

  function React(s: State, p: nat): State
    requires CanReact(s, p)
  {
    var x := s.promises[p];
    match (x.reaction, s.promises[x.source].outcome.value)
    case (Then(_), Fulfilled(_)) => s.(promises := s.promises[p := x.(reaction := Then(true))], starts := s.starts + [p])
    case (_, Fulfilled(v)) => Settle(s, p, Fulfilled(v))
    case (Then(_), Rejected(e)) => Settle(s, p, Rejected(e))  // the task is skipped
    case (_, Rejected(_)) => Settle(s, p, Fulfilled(UNDEFINED))
  }

  function Apply(s: State, step: Step): State {
    match step
    case ToSubmit => Submitted(s)
    case ToReact(p) => if CanReact(s, p) then React(s, p) else s
    case ToEnd(p, o) => if Running(s, p) then s.(own := s.own[p := o]) else s
    case ToAdopt(p) => if CanAdopt(s, p) then Settle(s, p, s.own[p]) else s
  }

  function Run(s: State, steps: seq<Step>): State
    decreases |steps|
  {
    if steps == [] then s else Run(Apply(s, steps[0]), steps[1..])
  }

  /** The object behind the returned function, with the promises it has made. */
  class Chain {
    var promises: seq<Promise>
    var promise: nat
    var own: map<nat, Outcome>
    var starts: seq<nat>

    ghost function Contents(): State
      reads this
    {
      State(promises, promise, own, starts)
    }

    constructor ()
      ensures Contents() == EMPTY
    {
      promises, promise, own, starts := [Promise(0, Resolved, Some(Fulfilled(UNDEFINED)))], 0, map[], [];
    }

    method MakePromise(source: nat, reaction: Reaction) returns (p: nat)
      modifies this`promises
      ensures p == |old(promises)| && promises == old(promises) + [Promise(source, reaction, None)]
    {
      p := |promises|;
      promises := promises + [Promise(source, reaction, None)];
    }

    /** Returns the promise handed to the caller. */
    method Submit() returns (resultPromise: nat)
      modifies this
      ensures Contents() == Submitted(old(Contents())) && resultPromise == |old(promises)|
    {
      resultPromise := MakePromise(promise, Then(false));
      promise := MakePromise(resultPromise, Catch);
    }

    method SettlePromise(p: nat, o: Outcome)
      requires p < |promises|
      modifies this`promises
      ensures Contents() == Settle(old(Contents()), p, o)
    {
      promises := promises[p := promises[p].(outcome := Some(o))];
    }

    /** The job queued on `p`. */
    method RunJob(p: nat)
      requires CanReact(Contents(), p)
      modifies this
      ensures Contents() == React(old(Contents()), p)
    {
      var settled := promises[promises[p].source].outcome.value;
      if promises[p].reaction.Then? && settled.Fulfilled? {
        promises := promises[p := promises[p].(reaction := Then(true))];
        starts := starts + [p];
      } else if promises[p].reaction.Then? || settled.Fulfilled? {
        SettlePromise(p, settled);
      } else {
        SettlePromise(p, Fulfilled(UNDEFINED));
      }
    }

    method Perform(step: Step)
      modifies this
      ensures Contents() == Apply(old(Contents()), step)
    {
      match step {
        case ToSubmit =>
          var _ := Submit();
        case ToReact(p) =>
          if CanReact(State(promises, promise, own, starts), p) {
            RunJob(p);
          }
        case ToEnd(p, o) =>
          if Running(State(promises, promise, own, starts), p) {
            own := own[p := o];
          }
        case ToAdopt(p) =>
          if CanAdopt(State(promises, promise, own, starts), p) {
            SettlePromise(p, own[p]);
          }
      }
    }

    /** The results below are about what this method leaves. */
    method Execute(steps: seq<Step>)
      modifies this
      ensures Contents() == Run(old(Contents()), steps)
    {
      var i := 0;
      while i < |steps|
        invariant 0 <= i <= |steps|
        invariant Run(Contents(), steps[i..]) == Run(old(Contents()), steps)
      {
        assert steps[i..][0] == steps[i] && steps[i..][1..] == steps[i + 1..];
        Perform(steps[i]);
        i := i + 1;
      }
    }
  }

  // ---- What every step keeps ----

  predicate IsResult(p: nat) { p % 2 == 1 }

  predicate Settled(s: State, p: nat)
    requires p < |s.promises|
  {
    s.promises[p].outcome.Some?
  }

  predicate Started(s: State, p: nat)
    requires p < |s.promises|
  {
    s.promises[p].reaction == Then(true)
  }

  /** Each promise waits for the one before it. */
  predicate PromiseOk(s: State, p: nat)
    requires p < |s.promises|
  {
    var x := s.promises[p];
    && (p == 0 ==> x.reaction == Resolved && x.outcome.Some? && x.outcome.value.Fulfilled?)
    && (p > 0 ==> x.source == p - 1 && (Settled(s, p) ==> Settled(s, p - 1)))
    && (IsResult(p) <==> x.reaction.Then?)
    && (p > 0 && !IsResult(p) ==> x.reaction == Catch && (Settled(s, p) ==> x.outcome.value.Fulfilled?))
    && (IsResult(p) && Started(s, p) ==> Settled(s, p - 1))
    && (IsResult(p) && Settled(s, p) ==> Started(s, p) && p in s.own && s.own[p] == x.outcome.value)
    && (p in s.own ==> IsResult(p) && Started(s, p))
    && (Started(s, p) ==> p / 2 < |s.starts|)
  }

  ghost predicate Inv(s: State) {
    && |s.promises| % 2 == 1 && s.promise == |s.promises| - 1
    && (forall p: nat :: p < |s.promises| ==> PromiseOk(s, p))
    && (forall p :: p in s.own ==> p < |s.promises|)
    && StartsOk(s)
  }

  ghost predicate StartsOk(s: State) {
    forall i :: 0 <= i < |s.starts| ==> s.starts[i] == 2 * i + 1 < |s.promises| && Started(s, s.starts[i])
  }

  lemma SubmitKeeps(s: State)
    requires Inv(s)
    ensures Inv(Submitted(s))
  {
    var after := Submitted(s);
    forall p: nat | p < |after.promises|
      ensures PromiseOk(after, p)
    {
      assert p < |s.promises| ==> PromiseOk(s, p);
    }
  }

  lemma {:induction false} SettledDown(s: State, p: nat, q: nat)
    requires Inv(s) && q <= p < |s.promises| && Settled(s, p)
    ensures Settled(s, q)
  {
    if q < p {
      assert PromiseOk(s, p);
      SettledDown(s, p - 1, q);
    }
  }

  lemma StartedSoFar(s: State, i: nat)
    requires Inv(s)
    ensures i < |s.starts| ==> 2 * i + 1 < |s.promises| && Started(s, 2 * i + 1)
  {
    if i < |s.starts| {
      assert s.starts[i] == 2 * i + 1;
    }
  }

  /** A task starts only when every earlier one was started, so it is the next in line. */
  lemma NextToStart(s: State, p: nat)
    requires Inv(s) && p < |s.promises| && IsResult(p) && CanReact(s, p)
    ensures p == 2 * |s.starts| + 1 && Settled(s, p - 1)
    ensures s.promises[p].source == p - 1 && s.promises[p - 1].outcome.value.Fulfilled?
  {
    assert PromiseOk(s, p) && PromiseOk(s, p - 1);
    StartedSoFar(s, p / 2);
    if p >= 2 {
      SettledDown(s, p - 1, p - 2);
      assert PromiseOk(s, p - 2);
    }
  }

  lemma ReactKeeps(s: State, p: nat)
    requires Inv(s) && CanReact(s, p)
    ensures Inv(React(s, p))
  {
    var after := React(s, p);
    assert PromiseOk(s, p);
    if IsResult(p) {
      NextToStart(s, p);
    }
    forall q: nat | q < |after.promises|
      ensures PromiseOk(after, q)
    {
      assert PromiseOk(s, q);
    }
  }

  lemma EndKeeps(s: State, p: nat, o: Outcome)
    requires Inv(s) && Running(s, p)
    ensures Inv(s.(own := s.own[p := o]))
  {
    var after := s.(own := s.own[p := o]);
    forall q: nat | q < |after.promises|
      ensures PromiseOk(after, q)
    {
      assert PromiseOk(s, q);
    }
  }

  lemma AdoptKeeps(s: State, p: nat)
    requires Inv(s) && CanAdopt(s, p)
    ensures Inv(Settle(s, p, s.own[p]))
  {
    var after := Settle(s, p, s.own[p]);
    forall q: nat | q < |after.promises|
      ensures PromiseOk(after, q)
    {
      assert PromiseOk(s, q);
    }
  }

  lemma StepKeeps(s: State, step: Step)
    requires Inv(s)
    ensures Inv(Apply(s, step))
  {
    match step
    case ToSubmit => SubmitKeeps(s);
    case ToReact(p) =>
      if CanReact(s, p) {
        ReactKeeps(s, p);
      }
    case ToEnd(p, o) =>
      if Running(s, p) {
        EndKeeps(s, p, o);
      }
    case ToAdopt(p) =>
      if CanAdopt(s, p) {
        AdoptKeeps(s, p);
      }
  }

  lemma {:induction false} RunKeeps(s: State, steps: seq<Step>)
    requires Inv(s)
    ensures Inv(Run(s, steps))
    decreases |steps|
  {
    if steps != [] {
      StepKeeps(s, steps[0]);
      RunKeeps(Apply(s, steps[0]), steps[1..]);
    }
  }

  // ---- Main results ----

  /** Tasks start in the order of their submission, each once. */
  lemma StartsInOrder(steps: seq<Step>, i: nat)
    requires i < |Run(EMPTY, steps).starts|
    ensures Run(EMPTY, steps).starts[i] == 2 * i + 1
  {
    RunKeeps(EMPTY, steps);
  }

  /** When a task starts, every task submitted before it has ended: one task runs at a time. */
  lemma OneAtATime(steps: seq<Step>, p: nat, q: nat)
    requires p < q < |Run(EMPTY, steps).promises| && IsResult(p) && IsResult(q)
    requires Started(Run(EMPTY, steps), q)
    ensures p in Run(EMPTY, steps).own && !Running(Run(EMPTY, steps), p)
  {
    RunKeeps(EMPTY, steps);
    var s := Run(EMPTY, steps);
    assert PromiseOk(s, q);
    SettledDown(s, q - 1, p);
    assert PromiseOk(s, p);
  }

  /** The promise a caller holds comes to what that caller's task came to, and never to what an
      earlier task did. */
  lemma OwnOutcome(steps: seq<Step>, p: nat)
    requires p < |Run(EMPTY, steps).promises| && IsResult(p) && Settled(Run(EMPTY, steps), p)
    ensures var s := Run(EMPTY, steps); p in s.own && s.promises[p].outcome == Some(s.own[p])
  {
    RunKeeps(EMPTY, steps);
    assert PromiseOk(Run(EMPTY, steps), p);
  }

  /** Nothing is left to do: no job is queued and every task that was started has ended. */
  ghost predicate Quiet(s: State) {
    forall p: nat :: p < |s.promises| ==> !CanReact(s, p) && !CanAdopt(s, p) && !Running(s, p)
  }

  lemma {:induction false} QuietIsSettled(s: State, p: nat)
    requires Inv(s) && Quiet(s) && p < |s.promises|
    ensures Settled(s, p)
  {
    assert PromiseOk(s, p);
    if p > 0 {
      QuietIsSettled(s, p - 1);
      assert !CanReact(s, p) && !CanAdopt(s, p) && !Running(s, p);
    }
  }

  /** No rejection holds up the chain: it stops only when every submitted task was run and every
      caller has its outcome. */
  lemma NothingIsBlocked(steps: seq<Step>, p: nat)
    requires Quiet(Run(EMPTY, steps)) && p < |Run(EMPTY, steps).promises| && IsResult(p)
    ensures Started(Run(EMPTY, steps), p) && Settled(Run(EMPTY, steps), p)
  {
    RunKeeps(EMPTY, steps);
    QuietIsSettled(Run(EMPTY, steps), p);
    assert PromiseOk(Run(EMPTY, steps), p);
  }

  /** What is left to do: a result promise starts, ends and settles, a catching one only settles. */
  function Left(s: State, n: nat): nat
    requires n <= |s.promises|
  {
    if n == 0 then 0 else Left(s, n - 1) + LeftOf(s, n - 1)
  }

  function LeftOf(s: State, p: nat): nat
    requires p < |s.promises|
  {
    if Settled(s, p) then 0 else if !s.promises[p].reaction.Then? then 1
    else if !Started(s, p) then 3 else if p !in s.own then 2 else 1
  }

  lemma {:induction false} LeftOfOthers(s: State, after: State, p: nat, n: nat)
    requires n <= |s.promises| == |after.promises|
    requires forall q: nat :: q < |s.promises| && q != p ==> LeftOf(after, q) == LeftOf(s, q)
    requires p < n ==> LeftOf(after, p) + 1 == LeftOf(s, p)
    ensures Left(after, n) + (if p < n then 1 else 0) == Left(s, n)
  {
    if n > 0 {
      LeftOfOthers(s, after, p, n - 1);
    }
  }

  /** Every step that does something, other than a new submission, brings the end nearer by one. */
  lemma EveryStepCounts(s: State, step: Step)
    requires Inv(s) && Apply(s, step) != s && step != ToSubmit
    ensures |Apply(s, step).promises| == |s.promises|
    ensures Left(Apply(s, step), |s.promises|) + 1 == Left(s, |s.promises|)
  {
    var after := Apply(s, step);
    var p := step.p;
    assert PromiseOk(s, p);
    if step.ToReact? && IsResult(p) {
      NextToStart(s, p);
    }
    LeftOfOthers(s, after, p, |s.promises|);
  }

  /** n submitted tasks take 4n of them at most. */
  lemma {:induction false} LeftIsAtMost(s: State, n: nat)
    requires Inv(s) && 2 * n < |s.promises|
    ensures Left(s, 2 * n + 1) <= 4 * n
  {
    if n > 0 {
      LeftIsAtMost(s, n - 1);
      assert PromiseOk(s, 2 * n) && !IsResult(2 * n);
      assert Left(s, 2 * n + 1) == Left(s, 2 * n - 1) + LeftOf(s, 2 * n - 1) + LeftOf(s, 2 * n);
    } else {
      assert PromiseOk(s, 0) && Left(s, 1) == Left(s, 0) + LeftOf(s, 0);
    }
  }
}

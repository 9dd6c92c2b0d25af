/** How often an event is claimed, how far apart, and by how many workers at a time. */
module EventClaims {
  import opened Option
  import opened Backoff
  import opened LearningTables
  import opened LearningSystem

  // ---- In every run: the number of claims ----

  ghost predicate Numbered(s: System) {
    && (forall id :: id in s.claims ==> id in s.db.events)
    && (forall id :: id in s.db.events ==>
          s.db.events[id].attempts == |ClaimsOf(s.claims, id)| <= MAX_ATTEMPTS)
  }

  /** Steps of the learning worker leave the events, their workers and their history alone. */
  predicate EventsUntouched(s: System, after: System) {
    after.db.events == s.db.events && after.processors == s.processors && after.claims == s.claims && after.now == s.now
  }

  predicate OfEvents(step: Step) {
    step.ToTick? || step.ToArrive? || step.ToClaimEvent? || step.ToProcessEvent? || step.ToFailEvent? || step.ToStopProcessor?
  }

  lemma OthersLeaveEvents(s: System, step: Step)
    requires !OfEvents(step)
    ensures EventsUntouched(s, Apply(s, step))
  {
  }

  lemma ChosenLeavesEvents(db: Db, e: Origin, r: Reads, now: int)
    requires e.signal.Some? && ReadsOk(db, e, r, now)
    ensures Chosen(db, e, r, now).events == db.events
  {
  }

  lemma SupportedMarksEvent(db: Db, id: Id, e: Origin, r: Reads, o: Observation, now: int)
    requires e.signal.Some? && ReadsOk(db, e, r, now)
    ensures Supported(db, id, e, r, o, now).db.events == MarkProcessed(db, id).events
  {
    ChosenLeavesEvents(db, e, r, now);
  }

  lemma ProcessMarksEvent(db: Db, id: Id, e: Origin, r: Reads, now: int)
    requires e.signal.Some? && r.allowed && !r.suppressed ==> ReadsOk(db, e, r, now)
    ensures Process(db, id, e, r, now).db.events == MarkProcessed(db, id).events
  {
    if e.signal.Some? && r.allowed && !r.suppressed {
      SupportedMarksEvent(db, id, e, r, Observation(id, e.signal.value.observationType), now);
    }
  }

  /** The event of worker `w` is marked, if it is still `processing`, and nothing else changes. */
  predicate Marks(s: System, after: System, w: Id) {
    && after.claims == s.claims && after.now == s.now
    && ((after.db.events == s.db.events && after.processors == s.processors)
        || (w in s.processors && !s.processors[w].committed && after.db.events == MarkProcessed(s.db, s.processors[w].event).events
            && after.processors == s.processors[w := s.processors[w].(committed := true)]))
  }

  lemma ProcessEventEffect(s: System, w: Id, r: Reads)
    ensures Marks(s, ProcessEvent(s, w, r), w)
  {
    if CanProcess(s, w, r) {
      ProcessMarksEvent(s.db, s.processors[w].event, s.processors[w].snapshot.origin, r, s.now);
    }
  }

  lemma StepKeepsNumbered(s: System, step: Step)
    requires Numbered(s)
    ensures Numbered(Apply(s, step))
  {
    if !OfEvents(step) {
      OthersLeaveEvents(s, step);
    } else if step.ToProcessEvent? {
      ProcessEventEffect(s, step.worker, step.found);
    }
  }

  lemma {:induction false} RunKeepsNumbered(s: System, steps: seq<Step>)
    requires Numbered(s)
    ensures Numbered(Run(s, steps))
    decreases |steps|
  {
    if steps != [] {
      StepKeepsNumbered(s, steps[0]);
      RunKeepsNumbered(Apply(s, steps[0]), steps[1..]);
    }
  }

  /** `processingAttempts` is the number of claims so far, and there are never more than eight. */
  lemma ClaimedAtMostEightTimes(s: System, steps: seq<Step>, id: Id)
    requires Init(s) && id in Run(s, steps).db.events
    ensures Run(s, steps).db.events[id].attempts == |ClaimsOf(Run(s, steps).claims, id)| <= 8
  {
    RunKeepsNumbered(s, steps);
  }

  // ---- Where no worker overruns its claim: who is at work, and when ----

  /** A worker writes its row within the five minutes of its claim, or not at all. */
  predicate Timely(s: System, step: Step) {
    match step
    case ToProcessEvent(w, _) => w in s.processors ==> s.now <= s.processors[w].deadline
    case ToFailEvent(w) => w in s.processors ==> s.now <= s.processors[w].deadline
    case ToRefusePromotion(w) => w in s.promoters ==> s.now <= s.promoters[w].deadline
    case ToPromote(w, _) => w in s.promoters ==> s.now <= s.promoters[w].deadline
    case ToFailPromotion(w) => w in s.promoters ==> s.now <= s.promoters[w].deadline
    case _ => true
  }

  predicate TimelyRun(s: System, steps: seq<Step>)
    decreases |steps|
  {
    steps == [] || (Timely(s, steps[0]) && TimelyRun(Apply(s, steps[0]), steps[1..]))
  }

  predicate Live(s: System, w: Id) {
    w in s.processors && s.now <= s.processors[w].deadline
  }

  /** What the claim before the last one makes the last one wait for. */
  predicate Spaced(cs: seq<Claim>, k: nat)
    requires 0 < k < |cs|
  {
    cs[k].at - cs[k - 1].at >= if cs[k].from == EventFailed then DelaySeconds(k) * 1_000 else CLAIM_MS
  }

  ghost predicate HistoryOk(cs: seq<Claim>, now: int) {
    && (forall k :: 0 < k < |cs| ==> Spaced(cs, k))
    && (cs != [] ==> cs[|cs| - 1].at <= now)
  }

  /** The row says what the next claim has to wait for. */
  ghost predicate RowTimed(e: Event, cs: seq<Claim>) {
    match e.status
    case EventPending => cs == []
    case EventProcessing => cs != [] && e.claimExpiresAt == Some(cs[|cs| - 1].at + CLAIM_MS)
    case EventFailed => cs != [] && e.nextAttemptAt.Some?
                        && e.nextAttemptAt.value >= cs[|cs| - 1].at + DelaySeconds(|cs|) * 1_000
    case EventProcessed => cs != []
  }

  /** A live worker holds the last claim of its event. */
  ghost predicate HoldsLastClaim(e: Event, cs: seq<Claim>, p: Processor) {
    && cs != [] && p.deadline == cs[|cs| - 1].at + CLAIM_MS && p.snapshot.attempts == |cs|
    && e.status == (if p.committed then EventProcessed else EventProcessing)
  }

  ghost predicate Timed(s: System) {
    && Numbered(s)
    && (forall id :: id in s.db.events ==>
          HistoryOk(ClaimsOf(s.claims, id), s.now) && RowTimed(s.db.events[id], ClaimsOf(s.claims, id)))
    && (forall w :: Live(s, w) ==>
          s.processors[w].event in s.db.events
          && HoldsLastClaim(s.db.events[s.processors[w].event], ClaimsOf(s.claims, s.processors[w].event), s.processors[w]))
    && (forall v, w :: Live(s, v) && Live(s, w) && v != w ==> s.processors[v].event != s.processors[w].event)
  }

  lemma TickKeeps(s: System, to: int)
    requires Timed(s)
    ensures Timed(Tick(s, to))
  {
    var after := Tick(s, to);
    assert forall w :: Live(after, w) ==> Live(s, w);
  }

  lemma ArriveKeeps(s: System, id: Id, e: Event)
    requires Timed(s)
    ensures Timed(Arrive(s, id, e))
  {
    var after := Arrive(s, id, e);
    assert forall w :: Live(after, w) ==> Live(s, w);
  }

  /** Only an event that nobody is at work on can be claimed. */
  lemma ClaimableIsFree(s: System, id: Id, w: Id)
    requires Timed(s) && id in s.db.events && Claimable(s.db.events[id], s.now) && Live(s, w)
    ensures s.processors[w].event != id
  {
  }

  lemma ClaimIsSpaced(e: Event, cs: seq<Claim>, now: int)
    requires Claimable(e, now) && HistoryOk(cs, now) && RowTimed(e, cs)
    ensures HistoryOk(cs + [Claim(now, e.status)], now)
    ensures RowTimed(ClaimedEvent(e, now), cs + [Claim(now, e.status)])
  {
    var next := cs + [Claim(now, e.status)];
    forall k | 0 < k < |next|
      ensures Spaced(next, k)
    {
      if k < |cs| {
        assert Spaced(cs, k);
      }
    }
  }

  /** One more claim `cs` of event `id`, held by `w`, whose row `e` says so. */
  lemma ClaimedKeeps(s: System, after: System, w: Id, id: Id, e: Event, cs: seq<Claim>, p: Processor)
    requires Timed(s) && id in s.db.events && p.event == id && after.now == s.now
    requires after.db.events == s.db.events[id := e] && after.claims == s.claims[id := cs]
    requires after.processors == s.processors[w := p]
    requires HistoryOk(cs, s.now) && RowTimed(e, cs) && HoldsLastClaim(e, cs, p) && e.attempts == |cs| <= MAX_ATTEMPTS
    requires forall v :: Live(s, v) ==> s.processors[v].event != id
    ensures Timed(after)
  {
    forall v | Live(after, v) && v != w
      ensures Live(s, v) && after.processors[v] == s.processors[v] && after.processors[v].event != id
    {
      assert Live(s, v);
    }
  }

  lemma ClaimEventKeeps(s: System, w: Id, id: Id)
    requires Timed(s)
    ensures Timed(ClaimEvent(s, w, id))
  {
    if CanClaimEvent(s, w, id) {
      var e, cs := ClaimedEvent(s.db.events[id], s.now), ClaimsOf(s.claims, id) + [Claim(s.now, s.db.events[id].status)];
      ClaimIsSpaced(s.db.events[id], ClaimsOf(s.claims, id), s.now);
      forall v | Live(s, v)
        ensures s.processors[v].event != id
      {
        ClaimableIsFree(s, id, v);
      }
      ClaimedKeeps(s, ClaimEvent(s, w, id), w, id, e, cs, Processor(id, e, s.now + CLAIM_MS, false));
    }
  }

  /** The live worker `w` writes the row of its own event. */
  lemma WrittenKeeps(s: System, after: System, w: Id, row: Event, p: Processor)
    requires Timed(s) && Live(s, w) && p.event == s.processors[w].event && after.now == s.now && after.claims == s.claims
    requires after.db.events == s.db.events[p.event := row] && after.processors == s.processors[w := p]
    requires p.event in s.db.events && row.attempts == s.db.events[p.event].attempts
    requires RowTimed(row, ClaimsOf(s.claims, p.event)) && HoldsLastClaim(row, ClaimsOf(s.claims, p.event), p)
    ensures Timed(after)
  {
    forall v | Live(after, v)
      ensures Live(s, v) && after.processors[v].event == s.processors[v].event
      ensures v != w ==> after.processors[v] == s.processors[v]
    {
    }
  }

  lemma MarkedKeeps(s: System, after: System, w: Id)
    requires Timed(s) && Marks(s, after, w) && (w in s.processors ==> Live(s, w))
    ensures Timed(after)
  {
    if after.processors != s.processors {
      var p := s.processors[w];
      assert HoldsLastClaim(s.db.events[p.event], ClaimsOf(s.claims, p.event), p);
      WrittenKeeps(s, after, w, after.db.events[p.event], p.(committed := true));
    } else {
      assert after.db.events == s.db.events;
      assert forall v :: Live(after, v) ==> Live(s, v);
    }
  }

  lemma ProcessEventKeeps(s: System, w: Id, r: Reads)
    requires Timed(s) && Timely(s, ToProcessEvent(w, r))
    ensures Timed(ProcessEvent(s, w, r))
  {
    ProcessEventEffect(s, w, r);
    MarkedKeeps(s, ProcessEvent(s, w, r), w);
  }

  lemma FailedIsTimed(e: Event, p: Processor, cs: seq<Claim>, now: int)
    requires HoldsLastClaim(e, cs, p) && (cs != [] ==> cs[|cs| - 1].at <= now)
    ensures RowTimed(FailedEvent(e, p.snapshot.attempts, now), cs)
    ensures FailedEvent(e, p.snapshot.attempts, now).attempts == e.attempts
  {
  }

  lemma FailEventKeeps(s: System, w: Id)
    requires Timed(s) && Timely(s, ToFailEvent(w))
    ensures Timed(FailEvent(s, w))
  {
    var after := FailEvent(s, w);
    if CanFailEvent(s, w) {
      assert Live(s, w);
      assert Numbered(after);
      forall v | Live(after, v)
        ensures Live(s, v) && after.processors[v] == s.processors[v] && s.processors[v].event != s.processors[w].event
      {
        assert Live(s, v) && v != w;
      }
      FailedIsTimed(s.db.events[s.processors[w].event], s.processors[w], ClaimsOf(s.claims, s.processors[w].event), s.now);
    }
  }

  lemma StepKeepsTimed(s: System, step: Step)
    requires Timed(s) && Timely(s, step)
    ensures Timed(Apply(s, step))
  {
    match step
    case ToTick(to) => TickKeeps(s, to);
    case ToArrive(id, e) => ArriveKeeps(s, id, e);
    case ToClaimEvent(w, id) => ClaimEventKeeps(s, w, id);
    case ToProcessEvent(w, r) => ProcessEventKeeps(s, w, r);
    case ToFailEvent(w) => FailEventKeeps(s, w);
    case ToStopProcessor(w) =>
      assert forall v :: Live(Apply(s, step), v) ==> Live(s, v);
    case _ =>
      OthersLeaveEvents(s, step);
      assert forall v :: Live(Apply(s, step), v) ==> Live(s, v);
  }

  lemma {:induction false} RunKeepsTimed(s: System, steps: seq<Step>)
    requires Timed(s) && TimelyRun(s, steps)
    ensures Timed(Run(s, steps))
    decreases |steps|
  {
    if steps != [] {
      StepKeepsTimed(s, steps[0]);
      RunKeepsTimed(Apply(s, steps[0]), steps[1..]);
    }
  }

  lemma ReachedTimed(s: System, steps: seq<Step>)
    requires Init(s) && TimelyRun(s, steps)
    ensures Timed(Run(s, steps))
  {
    RunKeepsTimed(s, steps);
  }

  /** An event has one live processor at most. */
  lemma OneLiveProcessor(s: System, steps: seq<Step>, v: Id, w: Id)
    requires Init(s) && TimelyRun(s, steps)
    requires Live(Run(s, steps), v) && Live(Run(s, steps), w)
    requires Run(s, steps).processors[v].event == Run(s, steps).processors[w].event
    ensures v == w
  {
    ReachedTimed(s, steps);
  }

  /** Claims k and k+1 are at least min(30 * 2^(k-1), 300) seconds apart. */
  lemma ClaimsAreSpaced(s: System, steps: seq<Step>, id: Id, k: nat)
    requires Init(s) && TimelyRun(s, steps) && 1 <= k < |ClaimsOf(Run(s, steps).claims, id)|
    ensures var cs := ClaimsOf(Run(s, steps).claims, id);
            cs[k].at - cs[k - 1].at >= Min(30 * Pow2(k - 1), 300) * 1_000
  {
    ReachedTimed(s, steps);
    assert id in Run(s, steps).db.events;
    assert Spaced(ClaimsOf(Run(s, steps).claims, id), k);
  }

  lemma {:induction false} DelaysAddUp(cs: seq<Claim>, k: nat)
    requires k < |cs|
    requires forall i :: 0 < i < |cs| ==> Spaced(cs, i) && cs[i].from == EventFailed
    ensures cs[k].at - cs[0].at >= TotalDelay(k) * 1_000
  {
    if k > 0 {
      DelaysAddUp(cs, k - 1);
      assert Spaced(cs, k);
    }
  }

  /** When every attempt ended in failure, the last claim is over an hour after the first. */
  lemma EighthClaimIsLate(s: System, steps: seq<Step>, id: Id)
    requires Init(s) && TimelyRun(s, steps) && |ClaimsOf(Run(s, steps).claims, id)| == 8
    requires forall k :: 0 < k < 8 ==> ClaimsOf(Run(s, steps).claims, id)[k].from == EventFailed
    ensures var cs := ClaimsOf(Run(s, steps).claims, id);
            cs[7].at - cs[0].at >= 3_810 * 1_000
  {
    ReachedTimed(s, steps);
    assert id in Run(s, steps).db.events;
    DelaysAddUp(ClaimsOf(Run(s, steps).claims, id), 7);
    Pow2Small();
    TotalDelayClosedForm(7);
  }
}

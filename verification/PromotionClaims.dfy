/** Who may be promoting a candidate, how often it is tried, and when a sweep gives it back. */
module PromotionClaims {
  import opened Option
  import opened Backoff
  import opened LearningTables
  import opened LearningSystem
  import EventClaims

  // ---- In every run: attempt numbers ----

  predicate AttemptFits(candidates: map<Id, Candidate>, p: Promoter) {
    p.candidate in candidates && 1 <= p.snapshot.attempts <= candidates[p.candidate].attempts
  }

  ghost predicate Numbered(s: System) {
    && (forall c :: c in s.db.candidates ==> s.db.candidates[c].attempts <= MAX_ATTEMPTS)
    && (forall key :: key in s.db.attempts ==>
          key.0 in s.db.candidates && 1 <= key.1 <= s.db.candidates[key.0].attempts)
    && (forall w :: w in s.promoters ==> AttemptFits(s.db.candidates, s.promoters[w]))
    && (forall w :: w in s.promoters && s.promoters[w].stage == BeforeAttemptRow ==>
          (s.promoters[w].candidate, s.promoters[w].snapshot.attempts) !in s.db.attempts)
    && (forall v, w :: v in s.promoters && w in s.promoters && v != w
                       && s.promoters[v].candidate == s.promoters[w].candidate ==>
          s.promoters[v].snapshot.attempts != s.promoters[w].snapshot.attempts)
  }

  /** No claim is made and no attempt row added; promoters may stop or move on, not go back. */
  ghost predicate NoNewAttempt(s: System, after: System) {
    && AttemptsKept(s.db.candidates, after.db.candidates)
    && after.db.attempts.Keys == s.db.attempts.Keys
    && (forall w :: w in after.promoters ==>
          w in s.promoters
          && after.promoters[w].(stage := InTry) == s.promoters[w].(stage := InTry)
          && (after.promoters[w].stage == BeforeAttemptRow ==> s.promoters[w].stage == BeforeAttemptRow))
  }

  lemma NoNewAttemptKeeps(s: System, after: System)
    requires Numbered(s) && NoNewAttempt(s, after)
    ensures Numbered(after)
  {
    forall w | w in after.promoters
      ensures AttemptFits(after.db.candidates, after.promoters[w])
    {
      assert AttemptFits(s.db.candidates, s.promoters[w]);
    }
  }

  /** Old candidates keep their attempts, new ones start without any. */
  ghost predicate AttemptsKept(a: map<Id, Candidate>, b: map<Id, Candidate>) {
    && (forall c :: c in a ==> c in b && b[c].attempts == a[c].attempts)
    && (forall c :: c in b && c !in a ==> b[c].attempts == 0)
  }

  lemma ChosenAttemptsNothing(db: Db, e: Origin, r: Reads, now: int)
    requires e.signal.Some? && ReadsOk(db, e, r, now)
    ensures Chosen(db, e, r, now).attempts == db.attempts && ChosenId(r) in Chosen(db, e, r, now).candidates
    ensures AttemptsKept(db.candidates, Chosen(db, e, r, now).candidates)
  {
  }

  lemma SupportAttemptsNothing(db: Db, c: Id, o: Observation, threshold: int, now: int)
    requires c in db.candidates
    ensures AttemptsKept(db.candidates, Support(db, c, o, threshold, now).candidates)
  {
  }

  lemma ProcessAttemptsNothing(db: Db, id: Id, e: Origin, r: Reads, now: int)
    requires e.signal.Some? && r.allowed && !r.suppressed ==> ReadsOk(db, e, r, now)
    ensures Process(db, id, e, r, now).db.attempts == db.attempts
    ensures AttemptsKept(db.candidates, Process(db, id, e, r, now).db.candidates)
  {
    if e.signal.Some? && r.allowed && !r.suppressed {
      var o := Observation(id, e.signal.value.observationType);
      ChosenAttemptsNothing(db, e, r, now);
      SupportAttemptsNothing(Observed(Chosen(db, e, r, now), o), ChosenId(r), o, e.signal.value.threshold, now);
    }
  }

  lemma ProcessEventAttemptsNothing(s: System, w: Id, r: Reads)
    ensures NoNewAttempt(s, ProcessEvent(s, w, r))
  {
    if CanProcess(s, w, r) {
      ProcessAttemptsNothing(s.db, s.processors[w].event, s.processors[w].snapshot.origin, r, s.now);
    }
  }

  lemma RefuseAttemptsNothing(s: System, w: Id)
    ensures NoNewAttempt(s, RefusePromotion(s, w))
  {
  }

  lemma PromoteAttemptsNothing(s: System, w: Id, row: Id)
    ensures NoNewAttempt(s, Promote(s, w, row))
  {
  }

  lemma FailPromotionAttemptsNothing(s: System, w: Id)
    ensures NoNewAttempt(s, FailPromotion(s, w))
  {
  }

  /** Promoter `p` takes candidate `c` on with the next attempt number. */
  lemma ClaimedKeeps(s: System, after: System, w: Id, c: Id, row: Candidate, p: Promoter)
    requires Numbered(s) && w !in s.promoters && c in s.db.candidates
    requires row.attempts == s.db.candidates[c].attempts + 1 <= MAX_ATTEMPTS
    requires p.candidate == c && p.snapshot == row
    requires after.db.candidates == s.db.candidates[c := row] && after.db.attempts == s.db.attempts
    requires after.promoters == s.promoters[w := p]
    ensures Numbered(after)
  {
    forall v | v in after.promoters
      ensures AttemptFits(after.db.candidates, after.promoters[v])
      ensures v != w ==> v in s.promoters && AttemptFits(s.db.candidates, s.promoters[v])
    {
      assert v in s.promoters && v != w ==> AttemptFits(s.db.candidates, s.promoters[v]);
    }
  }

  lemma ClaimCandidateKeeps(s: System, w: Id, c: Id)
    requires Numbered(s)
    ensures Numbered(ClaimCandidate(s, w, c))
  {
    var after := ClaimCandidate(s, w, c);
    if after != s {
      ClaimedKeeps(s, after, w, c, ClaimedCandidate(s.db.candidates[c], s.now), after.promoters[w]);
    }
  }

  lemma RecordKeeps(s: System, w: Id)
    requires Numbered(s)
    ensures Numbered(RecordAttempt(s, w))
    ensures CanRecord(s, w) ==> (s.promoters[w].candidate, s.promoters[w].snapshot.attempts) !in s.db.attempts
  {
    var after := RecordAttempt(s, w);
    if CanRecord(s, w) {
      assert AttemptFits(s.db.candidates, s.promoters[w]);
      forall v | v in after.promoters
        ensures AttemptFits(after.db.candidates, after.promoters[v])
      {
        assert AttemptFits(s.db.candidates, s.promoters[v]);
      }
    }
  }

  lemma SweepAttemptsNothing(s: System, swept: map<Id, Candidate>)
    requires AttemptsKept(s.db.candidates, swept)
    ensures NoNewAttempt(s, Sweep(s, swept))
  {
  }

  lemma StepAttemptsNothing(s: System, step: Step)
    requires !step.ToClaimCandidate? && !step.ToRecordAttempt?
    ensures NoNewAttempt(s, Apply(s, step))
  {
    match step
    case ToProcessEvent(w, r) => ProcessEventAttemptsNothing(s, w, r);
    case ToRefusePromotion(w) => RefuseAttemptsNothing(s, w);
    case ToPromote(w, row) => PromoteAttemptsNothing(s, w, row);
    case ToFailPromotion(w) => FailPromotionAttemptsNothing(s, w);
    case ToSweepStale => SweepAttemptsNothing(s, SweepStale(s.db.candidates, s.now));
    case ToSweepExpired => SweepAttemptsNothing(s, SweepExpired(s.db.candidates, s.now));
    case _ =>
  }

  lemma StepKeepsNumbered(s: System, step: Step)
    requires Numbered(s)
    ensures Numbered(Apply(s, step))
  {
    match step
    case ToClaimCandidate(w, c) => ClaimCandidateKeeps(s, w, c);
    case ToRecordAttempt(w) => RecordKeeps(s, w);
    case _ =>
      StepAttemptsNothing(s, step);
      NoNewAttemptKeeps(s, Apply(s, step));
  }

  lemma {:induction false} RunKeepsNumbered(s: System, steps: seq<Step>)
    requires Numbered(s)
    ensures Numbered(Run(s, steps))
    decreases |steps|
  {
    if steps != [] {
      StepKeepsNumbered(s, steps[0]);
      RunKeepsNumbered(Apply(s, steps[0]), steps[1..]);
    }
  }

  function AttemptRows(attempts: map<(Id, nat), AttemptStatus>, c: Id): set<nat> {
    set key | key in attempts && key.0 == c :: key.1
  }

  /** A candidate is promoted eight times at most, under eight different numbers. */
  lemma AttemptsAreBounded(s: System, steps: seq<Step>, c: Id)
    requires Init(s) && c in Run(s, steps).db.candidates
    ensures var db := Run(s, steps).db;
            && db.candidates[c].attempts <= 8
            && forall n :: n in AttemptRows(db.attempts, c) ==> 1 <= n <= db.candidates[c].attempts
  {
    RunKeepsNumbered(s, steps);
  }

  /** The insert of an attempt row never meets a row that is already there. */
  lemma AttemptRowIsNew(s: System, steps: seq<Step>, w: Id)
    requires Init(s) && CanRecord(Run(s, steps), w)
    ensures var now := Run(s, steps);
            (now.promoters[w].candidate, now.promoters[w].snapshot.attempts) !in now.db.attempts
  {
    RunKeepsNumbered(s, steps);
    RecordKeeps(Run(s, steps), w);
  }

  // ---- Where no worker overruns its claim: one live promoter ----

  predicate Live(s: System, w: Id) {
    w in s.promoters && s.now <= s.promoters[w].deadline
  }

  /** Until it commits, a live promoter owns a `processing` row that no sweep takes yet; after that,
      nobody can claim the row. */
  predicate Owned(c: Candidate, p: Promoter) {
    if p.stage == AfterCommit then c.status in {Confirmed, Superseded}
    else c.status == Processing && c.claimExpiresAt == Some(p.deadline) && c.updatedAt == p.deadline - CLAIM_MS
  }

  ghost predicate Exclusive(s: System) {
    && (forall w :: Live(s, w) ==>
          s.promoters[w].candidate in s.db.candidates && Owned(s.db.candidates[s.promoters[w].candidate], s.promoters[w]))
    && (forall v, w :: Live(s, v) && Live(s, w) && v != w ==> s.promoters[v].candidate != s.promoters[w].candidate)
  }

  /** Rows that a live promoter may hold stay as they are, but for a correction of a confirmed one. */
  ghost predicate KeepsOwned(a: map<Id, Candidate>, b: map<Id, Candidate>) {
    forall c :: c in a ==>
      && c in b
      && (a[c].status == Processing ==> b[c] == a[c])
      && (a[c].status in {Confirmed, Superseded} ==> b[c].status in {Confirmed, Superseded})
  }

  lemma KeepsOwnedIsExclusive(s: System, after: System)
    requires Exclusive(s) && KeepsOwned(s.db.candidates, after.db.candidates)
    requires after.now >= s.now
    requires forall w :: w in after.promoters ==> w in s.promoters && after.promoters[w] == s.promoters[w]
    ensures Exclusive(after)
  {
    assert forall w :: Live(after, w) ==> Live(s, w) && after.promoters[w] == s.promoters[w];
  }

  lemma ChosenKeepsOwned(db: Db, e: Origin, r: Reads, now: int)
    requires e.signal.Some? && ReadsOk(db, e, r, now)
    ensures var after := Chosen(db, e, r, now);
            && KeepsOwned(db.candidates, after.candidates)
            && ChosenId(r) in after.candidates && after.candidates[ChosenId(r)].status in {Collecting, Pending, Confirmed}
  {
  }

  lemma SupportKeepsOwned(db: Db, c: Id, o: Observation, threshold: int, now: int)
    requires c in db.candidates && db.candidates[c].status in {Collecting, Pending, Confirmed}
    ensures KeepsOwned(db.candidates, Support(db, c, o, threshold, now).candidates)
  {
  }

  lemma ProcessKeepsOwned(db: Db, id: Id, e: Origin, r: Reads, now: int)
    requires e.signal.Some? && r.allowed && !r.suppressed ==> ReadsOk(db, e, r, now)
    ensures KeepsOwned(db.candidates, Process(db, id, e, r, now).db.candidates)
  {
    if e.signal.Some? && r.allowed && !r.suppressed {
      var o := Observation(id, e.signal.value.observationType);
      ChosenKeepsOwned(db, e, r, now);
      SupportKeepsOwned(Observed(Chosen(db, e, r, now), o), ChosenId(r), o, e.signal.value.threshold, now);
    }
  }

  lemma ProcessEventKeepsExclusive(s: System, w: Id, r: Reads)
    requires Exclusive(s)
    ensures Exclusive(ProcessEvent(s, w, r))
  {
    if CanProcess(s, w, r) {
      ProcessKeepsOwned(s.db, s.processors[w].event, s.processors[w].snapshot.origin, r, s.now);
    }
    KeepsOwnedIsExclusive(s, ProcessEvent(s, w, r));
  }

  /** Neither sweep takes a row from a live promoter. */
  lemma SweepKeepsExclusive(s: System, swept: map<Id, Candidate>)
    requires Exclusive(s)
    requires swept == SweepStale(s.db.candidates, s.now) || swept == SweepExpired(s.db.candidates, s.now)
    ensures Exclusive(Sweep(s, swept))
  {
    var after := Sweep(s, swept);
    forall w | Live(after, w)
      ensures after.promoters[w].candidate in after.db.candidates
      ensures Owned(after.db.candidates[after.promoters[w].candidate], after.promoters[w])
    {
      assert Live(s, w);
    }
    assert forall w :: Live(after, w) ==> Live(s, w);
  }

  lemma ClaimCandidateKeepsExclusive(s: System, w: Id, c: Id)
    requires Exclusive(s)
    ensures Exclusive(ClaimCandidate(s, w, c))
  {
    var after := ClaimCandidate(s, w, c);
    if CanClaimCandidate(s, w, c) {
      forall v | Live(after, v) && v != w
        ensures Live(s, v) && after.promoters[v] == s.promoters[v]
      {
      }
      forall v | Live(s, v)
        ensures s.promoters[v].candidate != c
      {
        assert Owned(s.db.candidates[s.promoters[v].candidate], s.promoters[v]);
      }
    }
  }

  lemma RecordKeepsExclusive(s: System, w: Id)
    requires Exclusive(s)
    ensures Exclusive(RecordAttempt(s, w))
  {
    var after := RecordAttempt(s, w);
    forall v | Live(after, v)
      ensures Live(s, v) && after.promoters[v].candidate == s.promoters[v].candidate
      ensures after.promoters[v] == s.promoters[v] || after.promoters[v] == s.promoters[v].(stage := InTry)
      ensures after.promoters[v] != s.promoters[v] ==> s.promoters[v].stage == BeforeAttemptRow
    {
    }
  }

  /** A live promoter writes its own row, and is done with it or has confirmed it. */
  lemma OwnWriteKeepsExclusive(s: System, after: System, w: Id)
    requires Exclusive(s) && Live(s, w) && after.now == s.now
    requires after.promoters == s.promoters - {w}
             || (after.promoters == s.promoters[w := s.promoters[w].(stage := AfterCommit)]
                 && s.promoters[w].candidate in after.db.candidates
                 && after.db.candidates[s.promoters[w].candidate].status == Confirmed)
    requires forall c :: c in s.db.candidates && c != s.promoters[w].candidate ==>
               c in after.db.candidates && after.db.candidates[c] == s.db.candidates[c]
    ensures Exclusive(after)
  {
    forall v | Live(after, v)
      ensures Live(s, v) && (v != w ==> after.promoters[v] == s.promoters[v])
      ensures after.promoters[v].candidate == s.promoters[v].candidate
    {
    }
    forall v | Live(after, v)
      ensures after.promoters[v].candidate in after.db.candidates
      ensures Owned(after.db.candidates[after.promoters[v].candidate], after.promoters[v])
    {
      if v != w {
        assert Live(s, v) && s.promoters[v].candidate != s.promoters[w].candidate;
      }
    }
  }

  lemma RefuseKeepsExclusive(s: System, w: Id)
    requires Exclusive(s) && EventClaims.Timely(s, ToRefusePromotion(w))
    ensures Exclusive(RefusePromotion(s, w))
  {
    if RefusePromotion(s, w) != s {
      OwnWriteKeepsExclusive(s, RefusePromotion(s, w), w);
    }
  }

  lemma PromoteKeepsExclusive(s: System, w: Id, row: Id)
    requires Exclusive(s) && EventClaims.Timely(s, ToPromote(w, row))
    ensures Exclusive(Promote(s, w, row))
  {
    if Promote(s, w, row) != s {
      OwnWriteKeepsExclusive(s, Promote(s, w, row), w);
    }
  }

  lemma FailPromotionKeepsExclusive(s: System, w: Id)
    requires Exclusive(s) && EventClaims.Timely(s, ToFailPromotion(w))
    ensures Exclusive(FailPromotion(s, w))
  {
    if FailPromotion(s, w) != s {
      OwnWriteKeepsExclusive(s, FailPromotion(s, w), w);
    }
  }

  lemma OthersKeepExclusive(s: System, step: Step)
    requires Exclusive(s)
    requires step.ToTick? || step.ToArrive? || step.ToClaimEvent? || step.ToFailEvent? || step.ToStopProcessor?
             || step.ToStopPromoter?
    ensures Exclusive(Apply(s, step))
  {
    KeepsOwnedIsExclusive(s, Apply(s, step));
  }

  lemma StepKeepsExclusive(s: System, step: Step)
    requires Exclusive(s) && EventClaims.Timely(s, step)
    ensures Exclusive(Apply(s, step))
  {
    match step
    case ToProcessEvent(w, r) => ProcessEventKeepsExclusive(s, w, r);
    case ToSweepStale => SweepKeepsExclusive(s, SweepStale(s.db.candidates, s.now));
    case ToSweepExpired => SweepKeepsExclusive(s, SweepExpired(s.db.candidates, s.now));
    case ToClaimCandidate(w, c) => ClaimCandidateKeepsExclusive(s, w, c);
    case ToRecordAttempt(w) => RecordKeepsExclusive(s, w);
    case ToRefusePromotion(w) => RefuseKeepsExclusive(s, w);
    case ToPromote(w, row) => PromoteKeepsExclusive(s, w, row);
    case ToFailPromotion(w) => FailPromotionKeepsExclusive(s, w);
    case _ => OthersKeepExclusive(s, step);
  }

  lemma {:induction false} RunKeepsExclusive(s: System, steps: seq<Step>)
    requires Exclusive(s) && EventClaims.TimelyRun(s, steps)
    ensures Exclusive(Run(s, steps))
    decreases |steps|
  {
    if steps != [] {
      StepKeepsExclusive(s, steps[0]);
      RunKeepsExclusive(Apply(s, steps[0]), steps[1..]);
    }
  }

  /** A candidate has one live promoter at most, in spite of both sweeps. */
  lemma OneLivePromoter(s: System, steps: seq<Step>, v: Id, w: Id)
    requires Init(s) && EventClaims.TimelyRun(s, steps)
    requires Live(Run(s, steps), v) && Live(Run(s, steps), w)
    requires Run(s, steps).promoters[v].candidate == Run(s, steps).promoters[w].candidate
    ensures v == w
  {
    RunKeepsExclusive(s, steps);
  }

  // ---- The unique constraint and the sweep ----

  lemma StepKeepsUnique(s: System, step: Step)
    ensures Apply(s, step).db.candidates == s.db.candidates || UniqueStatus(Apply(s, step).db.candidates)
  {
  }

  lemma {:induction false} RunKeepsUnique(s: System, steps: seq<Step>)
    requires UniqueStatus(s.db.candidates)
    ensures UniqueStatus(Run(s, steps).db.candidates)
    decreases |steps|
  {
    if steps != [] {
      StepKeepsUnique(s, steps[0]);
      RunKeepsUnique(Apply(s, steps[0]), steps[1..]);
    }
  }

  /** An expired promotion whose key has meanwhile gathered a second, `pending` candidate. */
  predicate Blocks(candidates: map<Id, Candidate>, now: int, a: Id, b: Id)
    requires a in candidates && b in candidates
  {
    && candidates[a].status == Processing && Expired(candidates[a].claimExpiresAt, now)
    && candidates[b].status == Pending
    && candidates[a].proposal.user == candidates[b].proposal.user
    && candidates[a].proposal.key == candidates[b].proposal.key
  }

  /** The sweep is one statement under the unique constraint: it goes through, and gives back every
      expired promotion, exactly when none of them has a pending twin; otherwise it gives back none. */
  lemma SweepIsAllOrNothing(s: System, steps: seq<Step>)
    requires Init(s)
    ensures var now := Run(s, steps);
            var swept := Sweep(now, SweepExpired(now.db.candidates, now.now));
            if exists a, b :: a in now.db.candidates && b in now.db.candidates && Blocks(now.db.candidates, now.now, a, b)
            then swept == now
            else forall c :: c in swept.db.candidates && swept.db.candidates[c].status == Processing ==>
                   !Expired(swept.db.candidates[c].claimExpiresAt, now.now)
  {
    RunKeepsUnique(s, steps);
    var now := Run(s, steps);
    var before := now.db.candidates;
    var swept := SweepExpired(before, now.now);
    if a, b :| a in before && b in before && Blocks(before, now.now, a, b) {
      assert Clash(swept, a, b);
    } else {
      forall a, b | a in swept && b in swept
        ensures !Clash(swept, a, b)
      {
        assert !Clash(before, a, b);
        assert !Blocks(before, now.now, a, b) && !Blocks(before, now.now, b, a);
      }
    }
  }

  /** A promotion that has been under way for too long, and a pending candidate under its key. */
  predicate BlocksStale(candidates: map<Id, Candidate>, now: int, a: Id, b: Id)
    requires a in candidates && b in candidates
  {
    && candidates[a].status == Processing && candidates[a].updatedAt < now - STALE_MS
    && candidates[b].status == Pending
    && candidates[a].proposal.user == candidates[b].proposal.user
    && candidates[a].proposal.key == candidates[b].proposal.key
  }

  /** So does the activity worker's sweep, for promotions that have been under way for over 15 minutes. */
  lemma StaleSweepIsAllOrNothing(s: System, steps: seq<Step>)
    requires Init(s)
    ensures var now := Run(s, steps);
            var swept := Sweep(now, SweepStale(now.db.candidates, now.now));
            if exists a, b :: a in now.db.candidates && b in now.db.candidates && BlocksStale(now.db.candidates, now.now, a, b)
            then swept == now
            else forall c :: c in swept.db.candidates && swept.db.candidates[c].status == Processing ==>
                   swept.db.candidates[c].updatedAt >= now.now - STALE_MS
  {
    RunKeepsUnique(s, steps);
    var now := Run(s, steps);
    var before := now.db.candidates;
    var swept := SweepStale(before, now.now);
    if a, b :| a in before && b in before && BlocksStale(before, now.now, a, b) {
      assert Clash(swept, a, b);
    } else {
      forall a, b | a in swept && b in swept
        ensures !Clash(swept, a, b)
      {
        assert !Clash(before, a, b);
        assert !BlocksStale(before, now.now, a, b) && !BlocksStale(before, now.now, b, a);
      }
    }
  }
}

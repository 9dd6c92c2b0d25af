/** Two candidates under one key, one of them left behind in promotion: how they come about, and that
    nothing gets them apart again. */
module TwinCandidates {
  import opened Option
  import opened LearningTables
  import opened LearningSystem
  import opened LearningRuns

  /** No worker is promoting the candidate. */
  predicate Abandoned(s: System, c: Id) {
    forall w :: w in s.promoters ==> s.promoters[w].candidate != c
  }

  predicate Twins(candidates: map<Id, Candidate>, a: Id, b: Id) {
    && a in candidates && b in candidates
    && candidates[a].status == Processing && candidates[b].status == Pending
    && candidates[a].proposal.user == candidates[b].proposal.user
    && candidates[a].proposal.key == candidates[b].proposal.key
  }

  predicate Stuck(s: System, a: Id, b: Id) {
    Twins(s.db.candidates, a, b) && Abandoned(s, a) && Abandoned(s, b)
  }

  // ---- For good ----

  /** The first row is as it was, the second one still waits under the same key. */
  predicate RowsKept(before: map<Id, Candidate>, after: map<Id, Candidate>, a: Id, b: Id)
    requires a in before && b in before
  {
    && a in after && after[a] == before[a]
    && b in after && after[b].status == before[b].status && after[b].proposal == before[b].proposal
  }

  predicate PromotersKept(s: System, after: System, a: Id, b: Id) {
    forall w :: w in after.promoters ==>
      after.promoters[w].candidate !in {a, b}
      || (w in s.promoters && after.promoters[w].candidate == s.promoters[w].candidate)
  }

  lemma KeptIsStuck(s: System, after: System, a: Id, b: Id)
    requires Stuck(s, a, b) && RowsKept(s.db.candidates, after.db.candidates, a, b) && PromotersKept(s, after, a, b)
    ensures Stuck(after, a, b)
  {
  }

  /** The lookup finds the second twin, or another candidate, but never the first. */
  lemma ChosenKeepsRows(db: Db, e: Origin, r: Reads, now: int, a: Id, b: Id)
    requires Twins(db.candidates, a, b) && e.signal.Some? && ReadsOk(db, e, r, now)
    ensures RowsKept(db.candidates, Chosen(db, e, r, now).candidates, a, b) && ChosenId(r) != a
    ensures ChosenId(r) in Chosen(db, e, r, now).candidates
  {
  }

  lemma SupportKeepsRows(db: Db, c: Id, o: Observation, threshold: int, now: int, a: Id, b: Id)
    requires Twins(db.candidates, a, b) && c in db.candidates && c != a
    ensures RowsKept(db.candidates, Support(db, c, o, threshold, now).candidates, a, b)
  {
  }

  lemma ProcessKeepsRows(db: Db, id: Id, e: Origin, r: Reads, now: int, a: Id, b: Id)
    requires Twins(db.candidates, a, b)
    requires e.signal.Some? && r.allowed && !r.suppressed ==> ReadsOk(db, e, r, now)
    ensures RowsKept(db.candidates, Process(db, id, e, r, now).db.candidates, a, b)
  {
    if e.signal.Some? && r.allowed && !r.suppressed {
      var o := Observation(id, e.signal.value.observationType);
      ChosenKeepsRows(db, e, r, now, a, b);
      SupportKeepsRows(Observed(Chosen(db, e, r, now), o), ChosenId(r), o, e.signal.value.threshold, now, a, b);
    }
  }

  lemma ProcessEventKeeps(s: System, w: Id, r: Reads, a: Id, b: Id)
    requires Stuck(s, a, b)
    ensures RowsKept(s.db.candidates, ProcessEvent(s, w, r).db.candidates, a, b) && PromotersKept(s, ProcessEvent(s, w, r), a, b)
  {
    if CanProcess(s, w, r) {
      ProcessKeepsRows(s.db, s.processors[w].event, s.processors[w].snapshot.origin, r, s.now, a, b);
    }
  }

  /** A sweep gives promotions back, whichever it picks. */
  predicate GivesBack(before: map<Id, Candidate>, swept: map<Id, Candidate>) {
    && swept.Keys == before.Keys
    && forall c :: c in before ==>
         || swept[c] == before[c]
         || (before[c].status == Processing && swept[c].status == Pending && swept[c].proposal == before[c].proposal)
  }

  /** One that picks the first twin would make two pending ones, and so changes nothing. */
  lemma SweepKeeps(s: System, swept: map<Id, Candidate>, a: Id, b: Id)
    requires Stuck(s, a, b) && GivesBack(s.db.candidates, swept)
    ensures RowsKept(s.db.candidates, Sweep(s, swept).db.candidates, a, b) && PromotersKept(s, Sweep(s, swept), a, b)
    ensures swept[a] != s.db.candidates[a] ==> Sweep(s, swept) == s
  {
    if swept[a] != s.db.candidates[a] {
      assert Clash(swept, a, b);
    }
  }

  /** Claiming the second one would make two in promotion. */
  lemma ClaimKeeps(s: System, w: Id, c: Id, a: Id, b: Id)
    requires Stuck(s, a, b)
    ensures var after := ClaimCandidate(s, w, c);
            RowsKept(s.db.candidates, after.db.candidates, a, b) && PromotersKept(s, after, a, b)
  {
    if CanClaimCandidate(s, w, c) && c == b {
      assert Clash(s.db.candidates[c := ClaimedCandidate(s.db.candidates[c], s.now)], a, b);
    }
  }

  lemma RecordKeeps(s: System, w: Id, a: Id, b: Id)
    requires Stuck(s, a, b)
    ensures var after := RecordAttempt(s, w);
            RowsKept(s.db.candidates, after.db.candidates, a, b) && PromotersKept(s, after, a, b)
  {
  }

  lemma RefuseKeeps(s: System, w: Id, a: Id, b: Id)
    requires Stuck(s, a, b)
    ensures var after := RefusePromotion(s, w);
            RowsKept(s.db.candidates, after.db.candidates, a, b) && PromotersKept(s, after, a, b)
  {
  }

  lemma PromoteKeeps(s: System, w: Id, row: Id, a: Id, b: Id)
    requires Stuck(s, a, b)
    ensures var after := Promote(s, w, row);
            RowsKept(s.db.candidates, after.db.candidates, a, b) && PromotersKept(s, after, a, b)
  {
  }

  lemma FailKeeps(s: System, w: Id, a: Id, b: Id)
    requires Stuck(s, a, b)
    ensures var after := FailPromotion(s, w);
            RowsKept(s.db.candidates, after.db.candidates, a, b) && PromotersKept(s, after, a, b)
  {
  }

  /** Promoters of other candidates leave the pair alone. */
  lemma PromoterStepKeeps(s: System, step: Step, a: Id, b: Id)
    requires Stuck(s, a, b)
    requires step.ToRecordAttempt? || step.ToRefusePromotion? || step.ToPromote? || step.ToFailPromotion? || step.ToStopPromoter?
    ensures RowsKept(s.db.candidates, Apply(s, step).db.candidates, a, b) && PromotersKept(s, Apply(s, step), a, b)
  {
    match step
    case ToRecordAttempt(w) => RecordKeeps(s, w, a, b);
    case ToRefusePromotion(w) => RefuseKeeps(s, w, a, b);
    case ToPromote(w, row) => PromoteKeeps(s, w, row, a, b);
    case ToFailPromotion(w) => FailKeeps(s, w, a, b);
    case ToStopPromoter(w) =>
  }

  /** Neither do the clock and what happens to events. */
  lemma EventStepKeeps(s: System, step: Step, a: Id, b: Id)
    requires Stuck(s, a, b)
    requires step.ToTick? || step.ToArrive? || step.ToClaimEvent? || step.ToFailEvent? || step.ToStopProcessor?
    ensures RowsKept(s.db.candidates, Apply(s, step).db.candidates, a, b) && PromotersKept(s, Apply(s, step), a, b)
  {
  }

  lemma StepKeepsRows(s: System, step: Step, a: Id, b: Id)
    requires Stuck(s, a, b)
    ensures RowsKept(s.db.candidates, Apply(s, step).db.candidates, a, b) && PromotersKept(s, Apply(s, step), a, b)
  {
    match step
    case ToTick(_) => EventStepKeeps(s, step, a, b);
    case ToArrive(_, _) => EventStepKeeps(s, step, a, b);
    case ToClaimEvent(_, _) => EventStepKeeps(s, step, a, b);
    case ToFailEvent(_) => EventStepKeeps(s, step, a, b);
    case ToStopProcessor(_) => EventStepKeeps(s, step, a, b);
    case ToProcessEvent(w, r) => ProcessEventKeeps(s, w, r, a, b);
    case ToClaimCandidate(w, c) => ClaimKeeps(s, w, c, a, b);
    case ToSweepStale => SweepKeeps(s, SweepStale(s.db.candidates, s.now), a, b);
    case ToSweepExpired => SweepKeeps(s, SweepExpired(s.db.candidates, s.now), a, b);
    case _ => PromoterStepKeeps(s, step, a, b);
  }

  lemma TimeGoesOn(s: System, step: Step)
    ensures Apply(s, step).now >= s.now
  {
  }

  lemma StepKeepsStuck(s: System, step: Step, a: Id, b: Id)
    requires Stuck(s, a, b)
    ensures Stuck(Apply(s, step), a, b) && RowsKept(s.db.candidates, Apply(s, step).db.candidates, a, b)
  {
    StepKeepsRows(s, step, a, b);
    KeptIsStuck(s, Apply(s, step), a, b);
  }

  lemma {:induction false} RunKeepsStuck(s: System, steps: seq<Step>, a: Id, b: Id)
    requires Stuck(s, a, b)
    ensures Stuck(Run(s, steps), a, b) && RowsKept(s.db.candidates, Run(s, steps).db.candidates, a, b)
    ensures Run(s, steps).now >= s.now
    decreases |steps|
  {
    if steps != [] {
      StepKeepsStuck(s, steps[0], a, b);
      TimeGoesOn(s, steps[0]);
      RunKeepsStuck(Apply(s, steps[0]), steps[1..], a, b);
    }
  }

  /** Once its promoters are gone, a pair stays as it is in every continuation, and from the moment the claim
      has run out no sweep gives back any promotion any more, whoever it belongs to. */
  lemma StuckForGood(s: System, steps: seq<Step>, a: Id, b: Id)
    requires Stuck(s, a, b)
    ensures var after := Run(s, steps);
            && Stuck(after, a, b)
            && (Expired(s.db.candidates[a].claimExpiresAt, after.now) ==> Apply(after, ToSweepExpired) == after)
            && (s.db.candidates[a].updatedAt < after.now - STALE_MS ==> Apply(after, ToSweepStale) == after)
  {
    RunKeepsStuck(s, steps, a, b);
    var after := Run(s, steps);
    SweepKeeps(after, SweepExpired(after.db.candidates, after.now), a, b);
    SweepKeeps(after, SweepStale(after.db.candidates, after.now), a, b);
  }

  // ---- And it happens ----

  /** The candidate is claimed for promotion, and its promoter stops at once. */
  lemma ClaimAndStop(s: System, c: Id, w: Id) returns (after: System)
    requires w !in s.promoters && c in s.db.candidates && Promotable(s.db.candidates[c], s.now)
    requires UniqueStatus(s.db.candidates[c := ClaimedCandidate(s.db.candidates[c], s.now)])
    ensures Reaches(s, after)
    ensures after == s.(db := s.db.(candidates := s.db.candidates[c := ClaimedCandidate(s.db.candidates[c], s.now)]))
  {
    var claimed := Apply(s, ToClaimCandidate(w, c));
    after := Apply(claimed, ToStopPromoter(w));
    assert claimed.promoters - {w} == s.promoters;
    ReachesByRun(s, []);
    ReachesByStep(s, s, ToClaimCandidate(w, c));
    ReachesByStep(s, claimed, ToStopPromoter(w));
  }

  /** Three events make a candidate, its promoter stops after the claim, and three more events under the same key,
      which no longer find it, make its twin. */
  lemma TwinsHappen(s: System, e: Origin, a: Id, b: Id, spare: Id) returns (after: System)
    requires Init(s) && SkillSignal(e) && a != b && spare !in {a, b}
    ensures Reaches(s, after) && Stuck(after, a, b) && Expired(after.db.candidates[a].claimExpiresAt, after.now)
  {
    var one := ThreeEvents(s, 0, e, a, spare);
    assert one.db.candidates == map[a := Proposed(one.db, e, 3, Pending, s.now)];
    var two := ClaimAndStop(one, a, 0);
    assert two.db.candidates == map[a := ClaimedCandidate(Proposed(one.db, e, 3, Pending, s.now), s.now)];
    var three := ThreeEvents(two, 3, e, b, spare);
    after := Apply(three, ToTick(three.now + CLAIM_MS + 1));
    ReachesOn(s, one, two);
    ReachesOn(s, two, three);
    ReachesByStep(s, three, ToTick(three.now + CLAIM_MS + 1));
  }
}

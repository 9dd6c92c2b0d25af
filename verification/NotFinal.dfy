/** Which steps take rows into and out of states that look final, and runs in which they do. */
module NotFinal {
  import opened Option
  import opened Backoff
  import opened LearningTables
  import opened LearningSystem
  import opened LearningRuns
  import EventClaims

  // ---- Processed events ----

  lemma FailEventStatus(s: System, w: Id, id: Id)
    requires id in s.db.events && s.db.events[id].status == EventProcessed
    ensures var after := FailEvent(s, w).db.events;
            && id in after
            && (after[id].status != EventProcessed <==> w in s.processors && s.processors[w].event == id)
  {
  }

  lemma OthersLeaveProcessed(s: System, step: Step, id: Id)
    requires !step.ToProcessEvent? && !step.ToFailEvent?
    requires id in s.db.events && s.db.events[id].status == EventProcessed
    ensures id in Apply(s, step).db.events && Apply(s, step).db.events[id].status == EventProcessed
  {
    if !EventClaims.OfEvents(step) {
      EventClaims.OthersLeaveEvents(s, step);
    }
  }

  /** Only the catch block of a worker that holds the event takes it out of `processed`. */
  lemma ProcessedEndsExactlyWhen(s: System, step: Step, id: Id)
    requires id in s.db.events && s.db.events[id].status == EventProcessed
    ensures id in Apply(s, step).db.events
    ensures Apply(s, step).db.events[id].status != EventProcessed
       <==> step.ToFailEvent? && step.worker in s.processors && s.processors[step.worker].event == id
  {
    match step
    case ToProcessEvent(w, r) => EventClaims.ProcessEventEffect(s, w, r);
    case ToFailEvent(w) => FailEventStatus(s, w, id);
    case _ => OthersLeaveProcessed(s, step, id);
  }

  lemma OthersProcessNothing(s: System, step: Step, id: Id)
    requires !step.ToProcessEvent?
    requires id in s.db.events && s.db.events[id].status != EventProcessed
    ensures id in Apply(s, step).db.events && Apply(s, step).db.events[id].status != EventProcessed
  {
    if !EventClaims.OfEvents(step) {
      EventClaims.OthersLeaveEvents(s, step);
    }
  }

  predicate Commits(s: System, w: Id, r: Reads) {
    && CanProcess(s, w, r)
    && UniqueStatus(Process(s.db, s.processors[w].event, s.processors[w].snapshot.origin, r, s.now).db.candidates)
  }

  lemma CommittedEvents(s: System, w: Id, r: Reads)
    ensures ProcessEvent(s, w, r).db.events
         == if Commits(s, w, r) then MarkProcessed(s.db, s.processors[w].event).events else s.db.events
  {
    if CanProcess(s, w, r) {
      EventClaims.ProcessMarksEvent(s.db, s.processors[w].event, s.processors[w].snapshot.origin, r, s.now);
    }
  }

  lemma MarkedStatus(db: Db, marked: Id, id: Id)
    requires id in db.events && db.events[id].status != EventProcessed
    ensures id in MarkProcessed(db, marked).events
    ensures MarkProcessed(db, marked).events[id].status == EventProcessed <==> id == marked && db.events[id].status == EventProcessing
  {
  }

  /** Worker `w` marks event `id`, which is still `processing`, whoever has claimed it. */
  predicate CommitsFor(s: System, w: Id, r: Reads, id: Id) {
    Commits(s, w, r) && s.processors[w].event == id && id in s.db.events && s.db.events[id].status == EventProcessing
  }

  lemma ProcessEventStatus(s: System, w: Id, r: Reads, id: Id)
    requires id in s.db.events && s.db.events[id].status != EventProcessed
    ensures var after := ProcessEvent(s, w, r).db.events;
            id in after && (after[id].status == EventProcessed <==> CommitsFor(s, w, r, id))
  {
    CommittedEvents(s, w, r);
    if Commits(s, w, r) {
      MarkedStatus(s.db, s.processors[w].event, id);
    }
  }

  /** An event becomes `processed` only when the transaction of a worker that holds it commits while the row is
      still `processing`. */
  lemma ProcessedBeginsExactlyWhen(s: System, step: Step, id: Id)
    requires id in s.db.events && s.db.events[id].status != EventProcessed
    ensures id in Apply(s, step).db.events
    ensures Apply(s, step).db.events[id].status == EventProcessed
       <==> step.ToProcessEvent? && CommitsFor(s, step.worker, step.found, id)
  {
    match step
    case ToProcessEvent(w, r) => ProcessEventStatus(s, w, r, id);
    case _ => OthersProcessNothing(s, step, id);
  }

  // ---- Confirmed candidates ----

  /** What takes a candidate out of `confirmed`: the catch block or the refusal of a promoter that holds it,
      or a correction that archives its skill, as far as the unique key lets them. */
  predicate Reopens(s: System, step: Step, c: Id) {
    match step
    case ToFailPromotion(w) =>
      && CanFailPromotion(s, w) && s.promoters[w].candidate == c
      && UniqueStatus(FailedPromotion(s.db, c, s.promoters[w].snapshot.attempts, s.now).candidates)
    case ToRefusePromotion(w) =>
      && CanRefuse(s, w) && s.promoters[w].candidate == c
      && UniqueStatus(Refused(s.db, c, s.promoters[w].snapshot.attempts, s.now).candidates)
    case ToProcessEvent(w, r) =>
      && CanProcess(s, w, r) && s.processors[w].snapshot.origin.signal.Some? && r.allowed && !r.suppressed
      && r.corrected.Some? && r.corrected.value.candidate == c
      && UniqueStatus(Process(s.db, s.processors[w].event, s.processors[w].snapshot.origin, r, s.now).db.candidates)
    case _ => false
  }

  lemma ProcessedStatus(db: Db, id: Id, e: Origin, r: Reads, now: int, c: Id)
    requires c in db.candidates && db.candidates[c].status == Confirmed
    requires e.signal.Some? && r.allowed && !r.suppressed ==> ReadsOk(db, e, r, now)
    ensures var after := Process(db, id, e, r, now).db.candidates;
            var archived := e.signal.Some? && r.allowed && !r.suppressed && r.corrected.Some? && r.corrected.value.candidate == c;
            c in after && after[c].status == if archived then Superseded else Confirmed
  {
    if e.signal.Some? && r.allowed && !r.suppressed {
      var mid := Chosen(db, e, r, now);
      assert c in mid.candidates;
    }
  }

  lemma ClaimLeavesConfirmed(s: System, w: Id, d: Id, c: Id)
    requires c in s.db.candidates && s.db.candidates[c].status == Confirmed
    ensures var after := ClaimCandidate(s, w, d).db.candidates; c in after && after[c].status == Confirmed
  {
  }

  lemma RefusedStatus(s: System, w: Id, c: Id)
    requires c in s.db.candidates && s.db.candidates[c].status == Confirmed
    ensures var after := RefusePromotion(s, w).db.candidates;
            c in after && (after[c].status != Confirmed <==> Reopens(s, ToRefusePromotion(w), c))
  {
  }

  lemma FailedStatus(s: System, w: Id, c: Id)
    requires c in s.db.candidates && s.db.candidates[c].status == Confirmed
    ensures var after := FailPromotion(s, w).db.candidates;
            c in after && (after[c].status != Confirmed <==> Reopens(s, ToFailPromotion(w), c))
  {
  }

  lemma PromotedStatus(s: System, w: Id, row: Id, c: Id)
    requires c in s.db.candidates && s.db.candidates[c].status == Confirmed
    ensures var after := Promote(s, w, row).db.candidates; c in after && after[c].status == Confirmed
  {
  }

  lemma OthersLeaveConfirmed(s: System, step: Step, c: Id)
    requires !step.ToProcessEvent? && !step.ToClaimCandidate? && !step.ToRefusePromotion? && !step.ToPromote?
    requires !step.ToFailPromotion?
    requires c in s.db.candidates && s.db.candidates[c].status == Confirmed
    ensures c in Apply(s, step).db.candidates && Apply(s, step).db.candidates[c].status == Confirmed
  {
  }

  lemma ConfirmedEndsExactlyWhen(s: System, step: Step, c: Id)
    requires c in s.db.candidates && s.db.candidates[c].status == Confirmed
    ensures c in Apply(s, step).db.candidates
    ensures Apply(s, step).db.candidates[c].status != Confirmed <==> Reopens(s, step, c)
  {
    match step
    case ToProcessEvent(w, r) =>
      if CanProcess(s, w, r) {
        ProcessedStatus(s.db, s.processors[w].event, s.processors[w].snapshot.origin, r, s.now, c);
      }
    case ToClaimCandidate(w, d) => ClaimLeavesConfirmed(s, w, d, c);
    case ToRefusePromotion(w) => RefusedStatus(s, w, c);
    case ToPromote(w, row) => PromotedStatus(s, w, row, c);
    case ToFailPromotion(w) => FailedStatus(s, w, c);
    case _ => OthersLeaveConfirmed(s, step, c);
  }

  // ---- Runs ----

  /** A signal that the user's settings keep out: the event is processed and nothing else happens. */
  const REFUSED: Reads := Reads(false, false, None, None, 0)

  lemma RefusedIsProcessed(t: System, w: Id)
    requires w in t.processors && !t.processors[w].committed && UniqueStatus(t.db.candidates)
    requires var id := t.processors[w].event; id in t.db.events && t.db.events[id].status == EventProcessing
    ensures var after, id := ProcessEvent(t, w, REFUSED), t.processors[w].event;
            && id in after.db.events && after.db.events[id].status == EventProcessed
            && after.db.events[id].attempts == t.db.events[id].attempts
            && w in after.processors && after.processors[w].event == id && after.now == t.now
  {
  }

  lemma ClaimedRow(s: System, id: Id, w: Id, e: Origin)
    ensures var t := Claimed(s, id, w, e);
            && w in t.processors && !t.processors[w].committed && t.processors[w].event == id
            && t.db.candidates == s.db.candidates && id in t.db.events
            && t.db.events[id].status == EventProcessing && t.db.events[id].attempts == 1
  {
  }

  /** The transaction commits, the call after it throws, and the catch block reopens the event. */
  lemma EventReopens(s: System, id: Id, w: Id, e: Origin) returns (processed: System, after: System)
    requires Init(s) && Fresh(s, id, w)
    ensures Reaches(s, processed) && id in processed.db.events && processed.db.events[id].status == EventProcessed
    ensures after == Apply(processed, ToFailEvent(w)) && Reaches(s, after)
    ensures id in after.db.events && after.db.events[id].status == EventFailed
  {
    processed := ProcessEvent(Claimed(s, id, w, e), w, REFUSED);
    ReachesByRun(s, ObserveSteps(id, w, e, REFUSED));
    ObserveRun(s, id, w, e, REFUSED);
    ClaimedRow(s, id, w, e);
    RefusedIsProcessed(Claimed(s, id, w, e), w);
    after := Apply(processed, ToFailEvent(w));
    ReachesByStep(s, processed, ToFailEvent(w));
  }

  /** The worker's claim runs out and another worker takes the event over; the late catch block makes it `failed`,
      and a third worker claims it while the second is still at work. */
  lemma TwoLiveProcessors(s: System, id: Id, e: Origin) returns (after: System)
    requires Init(s) && Fresh(s, id, 0)
    ensures Reaches(s, after) && EventClaims.Live(after, 1) && EventClaims.Live(after, 2)
    ensures after.processors[1].event == after.processors[2].event == id
  {
    ReachesByRun(s, []);
    var arrived := Apply(s, ToArrive(id, Arrival(e)));
    ReachesByStep(s, s, ToArrive(id, Arrival(e)));
    ReachesByStep(s, arrived, ToClaimEvent(0, id));
    ClaimArrival(s, id, 0, e);
    var claimed := Claimed(s, id, 0, e);
    var expired := Apply(claimed, ToTick(s.now + CLAIM_MS + 1));
    ReachesByStep(s, claimed, ToTick(s.now + CLAIM_MS + 1));
    after := TakeTwice(s, expired, id);
  }

  /** From the moment the first claim has run out. */
  lemma TakeTwice(s: System, expired: System, id: Id) returns (after: System)
    requires Reaches(s, expired) && expired.processors.Keys == {0} && expired.processors[0].event == id
    requires expired.processors[0].snapshot.attempts == 1
    requires id in expired.db.events && expired.db.events[id].status == EventProcessing
    requires expired.db.events[id].attempts == 1 && Expired(expired.db.events[id].claimExpiresAt, expired.now)
    ensures Reaches(s, after) && EventClaims.Live(after, 1) && EventClaims.Live(after, 2)
    ensures after.processors[1].event == after.processors[2].event == id
  {
    var taken := Apply(expired, ToClaimEvent(1, id));
    ReachesByStep(s, expired, ToClaimEvent(1, id));
    var failed := Apply(taken, ToFailEvent(0));
    ReachesByStep(s, taken, ToFailEvent(0));
    assert failed.db.events[id] == FailedEvent(taken.db.events[id], 1, expired.now);
    var later := Apply(failed, ToTick(failed.now + 30_000));
    ReachesByStep(s, failed, ToTick(failed.now + 30_000));
    FirstDelay();
    after := Apply(later, ToClaimEvent(2, id));
    ReachesByStep(s, later, ToClaimEvent(2, id));
  }

  lemma FirstDelay()
    ensures DelaySeconds(1) == 30
  {
    Pow2Small();
  }

  /** Three events make a candidate that proposes a new skill. */
  lemma WaitingCandidate(s: System, e: Origin, c: Id, spare: Id) returns (waiting: System)
    requires Init(s) && SkillSignal(e) && c != spare
    requires !NameTaken(s.db.skills, e.user, "learned-" + Prefix(e.signal.value.key, 12))
    ensures Reaches(s, waiting) && waiting.promoters == map[] && waiting.db.attempts == map[]
    ensures waiting.db.candidates.Keys == {c} && Promotable(waiting.db.candidates[c], waiting.now)
    ensures waiting.db.candidates[c].evidenceCount >= MIN_EVIDENCE && NewName(waiting, waiting.db.candidates[c].proposal)
    ensures waiting.db.skills == s.db.skills
  {
    waiting := ThreeEvents(s, 0, e, c, spare);
    assert waiting.db.candidates == map[c := Proposed(waiting.db, e, 3, Pending, s.now)];
  }

  /** A promotion commits, the call after it throws, and the catch block puts the candidate back: its skill stays. */
  lemma CandidateReopens(s: System, e: Origin, c: Id, spare: Id, row: Id) returns (confirmed: System, after: System)
    requires Init(s) && SkillSignal(e) && c != spare && row !in s.db.skills
    requires !NameTaken(s.db.skills, e.user, "learned-" + Prefix(e.signal.value.key, 12))
    ensures Reaches(s, confirmed) && c in confirmed.db.candidates && confirmed.db.candidates[c].status == Confirmed
    ensures after == Apply(confirmed, ToFailPromotion(0)) && Reaches(s, after)
    ensures c in after.db.candidates && after.db.candidates[c].status == Pending
    ensures row in after.db.skills && after.db.skills[row].source == Some(c)
  {
    var waiting := WaitingCandidate(s, e, c, spare);
    var claimed := ClaimOnly(s, waiting, c);
    var recorded := RecordOnly(s, claimed, c);
    confirmed := PromoteOnly(s, recorded, c, row);
    after := Apply(confirmed, ToFailPromotion(0));
    ReachesByStep(s, confirmed, ToFailPromotion(0));
    FailOnly(confirmed, c);
  }

  /** A promoter works on the only candidate there is, which proposes a new skill. */
  predicate OnlyPromoter(t: System, c: Id, stage: Stage) {
    && t.db.candidates.Keys == {c} && t.promoters.Keys == {0}
    && t.promoters[0].candidate == c && t.promoters[0].stage == stage
    && t.promoters[0].snapshot.evidenceCount >= MIN_EVIDENCE && NewName(t, t.promoters[0].snapshot.proposal)
  }

  predicate NewName(t: System, p: Proposal) {
    p.payload.SkillPayload? && p.payload.revises.None? && !NameTaken(t.db.skills, p.user, p.payload.name)
  }

  lemma ClaimOnly(s: System, waiting: System, c: Id) returns (claimed: System)
    requires Reaches(s, waiting) && waiting.promoters == map[] && waiting.db.attempts == map[]
    requires waiting.db.candidates.Keys == {c} && Promotable(waiting.db.candidates[c], waiting.now)
    requires waiting.db.candidates[c].evidenceCount >= MIN_EVIDENCE && NewName(waiting, waiting.db.candidates[c].proposal)
    ensures Reaches(s, claimed) && OnlyPromoter(claimed, c, BeforeAttemptRow)
    ensures claimed.db.skills == waiting.db.skills && claimed.db.attempts == map[]
  {
    ReachesByStep(s, waiting, ToClaimCandidate(0, c));
    claimed := ClaimCandidate(waiting, 0, c);
  }

  lemma RecordOnly(s: System, claimed: System, c: Id) returns (recorded: System)
    requires Reaches(s, claimed) && OnlyPromoter(claimed, c, BeforeAttemptRow) && claimed.db.attempts == map[]
    ensures Reaches(s, recorded) && OnlyPromoter(recorded, c, InTry) && recorded.db.skills == claimed.db.skills
  {
    ReachesByStep(s, claimed, ToRecordAttempt(0));
    recorded := RecordAttempt(claimed, 0);
  }

  lemma PromoteOnly(s: System, recorded: System, c: Id, row: Id) returns (confirmed: System)
    requires Reaches(s, recorded) && OnlyPromoter(recorded, c, InTry) && row !in recorded.db.skills
    ensures Reaches(s, confirmed) && confirmed.db.candidates.Keys == {c} && confirmed.db.candidates[c].status == Confirmed
    ensures row in confirmed.db.skills && confirmed.db.skills[row].source == Some(c)
    ensures 0 in confirmed.promoters && confirmed.promoters[0].candidate == c && confirmed.promoters[0].stage == AfterCommit
  {
    ReachesByStep(s, recorded, ToPromote(0, row));
    confirmed := Promote(recorded, 0, row);
  }

  lemma FailOnly(confirmed: System, c: Id)
    requires confirmed.db.candidates.Keys == {c} && 0 in confirmed.promoters
    requires confirmed.promoters[0].candidate == c && confirmed.promoters[0].stage == AfterCommit
    ensures var after := FailPromotion(confirmed, 0);
            c in after.db.candidates && after.db.candidates[c].status == Pending && after.db.skills == confirmed.db.skills
  {
  }
}

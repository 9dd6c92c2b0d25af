/** What becomes of a corrected skill: the candidate of the correction proposes the next version, which can be carried
    out, and a run in which it is. */
module CorrectionRuns {
  import opened Option
  import opened Backoff
  import opened LearningTables
  import opened LearningSystem
  import opened LearningReach
  import opened LearningRuns
  import EvidenceCounts
  import EventEffects
  import PromotionEffects

  // ---- A correction can be carried out ----

  /** The candidate of a correction is promoted, whenever that is tried, exactly when the skill has not moved to
      another version in the meantime and no other candidate under its key is confirmed. */
  lemma CorrectionCanBeCarriedOut(t: System, w: Id, r: Reads, steps: seq<Step>, p: Id, row: Id)
    requires Reachable(t) && EventEffects.Commits(t, w, r) && EventEffects.Learns(t, w, r)
    requires r.corrected.Some? && r.existing.None? && t.processors[w].snapshot.origin.signal.value.kind == SkillKind
    requires var u := Run(Apply(t, ToProcessEvent(w, r)), steps); CanPromote(u, p, row) && u.promoters[p].candidate == r.newId
    ensures var k, d := r.corrected.value.skill, r.newId;
            var u := Run(Apply(t, ToProcessEvent(w, r)), steps);
            var after := Apply(u, ToPromote(p, row));
            && k in t.db.skills && k in u.db.skills && k in after.db.skills && d in u.db.candidates
            && if u.db.skills[k].version == t.db.skills[k].version && PromotionEffects.Free(u.db.candidates, d, Confirmed)
               then after.promoters[p].stage == AfterCommit && after.db.skills[k].version == t.db.skills[k].version + 1
                    && after.db.skills[k].source == Some(d) && !after.db.skills[k].archived
                    && after.db.skills[k].name == t.db.skills[k].name
               else after == u
  {
    var u, k := Run(Apply(t, ToProcessEvent(w, r)), steps), r.corrected.value.skill;
    ProposalIsKept(t, w, r, steps);
    PromoterRow(u, p);
    PromotionEffects.RevisionLeaves(u, p, row, t.db.skills[k].name, k, t.db.skills[k].version + 1);
  }

  /** It proposes the next version for as long as it exists. */
  lemma ProposalIsKept(t: System, w: Id, r: Reads, steps: seq<Step>)
    requires Reachable(t) && EventEffects.Commits(t, w, r) && EventEffects.Learns(t, w, r)
    requires r.corrected.Some? && r.existing.None? && t.processors[w].snapshot.origin.signal.value.kind == SkillKind
    ensures var u, k := Run(Apply(t, ToProcessEvent(w, r)), steps), r.corrected.value.skill;
            && Reachable(u) && k in t.db.skills && r.newId in u.db.candidates
            && u.db.candidates[r.newId].proposal.payload
               == SkillPayload(t.db.skills[k].name, Some(Revises(k, t.db.skills[k].version + 1)))
  {
    var first := Apply(t, ToProcessEvent(w, r));
    EventEffects.NewCandidateLeaves(t, w, r);
    ReachableStep(t, ToProcessEvent(w, r));
    ReachableOn(first, steps);
    ProposalStays(first, steps, r.newId);
  }

  lemma ProposalStays(t: System, steps: seq<Step>, c: Id)
    requires Reachable(t) && c in t.db.candidates
    ensures c in Run(t, steps).db.candidates && Run(t, steps).db.candidates[c].proposal == t.db.candidates[c].proposal
  {
    ReachableFits(t);
    EvidenceCounts.RunExtends(t, steps);
  }

  lemma ReachableStep(t: System, step: Step)
    requires Reachable(t)
    ensures Reachable(Apply(t, step))
  {
    ReachableOn(t, [step]);
    assert [step][1..] == [] && Run(t, [step]) == Apply(t, step);
  }

  lemma ReachedIsReachable(s: System, t: System)
    requires Init(s) && Reaches(s, t)
    ensures Reachable(t)
  {
  }

  // ---- A run in which it is ----

  /** Candidate `c` of the event's user and key is the source of skill `k`, which is active at version 1. */
  predicate Learned(t: System, e: Origin, c: Id, k: Id) {
    && e.signal.Some? && t.db.candidates.Keys == {c} && OfSignal(t, e, c) && t.db.candidates[c].status == Confirmed
    && k in t.db.skills && t.db.skills[k].source == Some(c) && !t.db.skills[k].archived && t.db.skills[k].version == 1
    && t.db.skills[k].name == SkillName(e) && t.db.skills[k].user == e.user
  }

  function SkillName(e: Origin): string
    requires e.signal.Some?
  {
    "learned-" + Prefix(e.signal.value.key, 12)
  }

  predicate OfSignal(t: System, e: Origin, c: Id)
    requires e.signal.Some? && c in t.db.candidates
  {
    var p := t.db.candidates[c].proposal;
    p.user == e.user && p.scope == e.scope && p.kind == SkillKind && p.key == e.signal.value.key
  }

  /** Promoter 0 has promoted candidate `c`, at the first attempt, and may still come to its catch block. */
  predicate JustPromoted(t: System, e: Origin, c: Id)
    requires e.signal.Some?
  {
    && 0 in t.promoters && t.promoters[0].candidate == c && t.promoters[0].stage == AfterCommit
    && t.promoters[0].snapshot.attempts == 1
    && c in t.db.candidates && t.db.candidates[c].attempts == 1 && t.db.candidates[c].evidenceCount == 3
    && t.db.candidates[c].proposal.payload == SkillPayload(SkillName(e), None)
  }

  /** Only promoter 0 is there, and events and their workers are numbered below `n`. */
  ghost predicate Below(t: System, n: nat) {
    && t.promoters.Keys == {0}
    && (forall i :: i in t.db.events || i in t.processors || i in t.claims ==> i < n)
    && (forall row :: row in t.db.evidence ==> row.1.event < n)
  }

  lemma LearnSkill(s: System, e: Origin, c: Id, k: Id, spare: Id) returns (t: System)
    requires Init(s) && SkillSignal(e) && c != spare && k !in s.db.skills
    requires !NameTaken(s.db.skills, e.user, SkillName(e))
    ensures Reaches(s, t) && Learned(t, e, c, k) && JustPromoted(t, e, c) && Below(t, 3)
  {
    var waiting := ThreeEvents(s, 0, e, c, spare);
    assert waiting.db.candidates == map[c := Proposed(waiting.db, e, 3, Pending, s.now)];
    ReachedIsReachable(s, waiting);
    var ready := ToReady(s, waiting, 0, c);
    PromoteNew(s, waiting, ready, e, c, k);
    t := Apply(ready, ToPromote(0, k));
    ReachesByStep(s, ready, ToPromote(0, k));
  }

  /** A promoter that is about to decide on candidate `c`. */
  predicate ReadyFor(t: System, w: Id, c: Id) {
    && w in t.promoters && t.promoters[w].stage == InTry && t.promoters[w].candidate == c && c in t.db.candidates
    && t.promoters[w].snapshot.evidenceCount == t.db.candidates[c].evidenceCount
    && t.promoters[w].snapshot.proposal == t.db.candidates[c].proposal
    && t.promoters[w].snapshot.attempts == t.db.candidates[c].attempts
  }

  /** Nothing but the promoter, its candidate's claim and its attempt row are new. */
  ghost predicate OnlyClaimed(t: System, after: System, w: Id, c: Id)
    requires c in t.db.candidates
  {
    && after == t.(db := t.db.(candidates := after.db.candidates, attempts := after.db.attempts), promoters := after.promoters)
    && after.promoters.Keys == t.promoters.Keys + {w}
    && after.db.candidates.Keys == t.db.candidates.Keys
    && after.db.candidates[c].proposal == t.db.candidates[c].proposal
    && after.db.candidates[c].evidenceCount == t.db.candidates[c].evidenceCount
    && after.db.candidates[c].attempts == t.db.candidates[c].attempts + 1
    && after.db.candidates[c].status == Processing
    && forall d :: d in t.db.candidates && d != c ==> after.db.candidates[d] == t.db.candidates[d]
  }

  lemma ToReady(s: System, t: System, w: Id, c: Id) returns (after: System)
    requires Init(s) && Reaches(s, t) && w !in t.promoters && PromotionEffects.MayBePromoted(t, c)
    requires PromotionEffects.Free(t.db.candidates, c, Processing)
    ensures Reaches(s, after) && ReadyFor(after, w, c) && OnlyClaimed(t, after, w, c)
  {
    ReachedIsReachable(s, t);
    PromotionEffects.ClaimLeaves(t, w, c);
    var claimed := Apply(t, ToClaimCandidate(w, c));
    ReachesByStep(s, t, ToClaimCandidate(w, c));
    ReachedIsReachable(s, claimed);
    PromotionEffects.RecordLeaves(claimed, w);
    after := Apply(claimed, ToRecordAttempt(w));
    ReachesByStep(s, claimed, ToRecordAttempt(w));
  }

  /** The promotion has inserted the skill. */
  ghost predicate Inserted(t: System, after: System, e: Origin, c: Id, k: Id)
    requires e.signal.Some? && c in t.db.candidates && 0 in t.promoters
  {
    && c in after.db.candidates
    && after.db.candidates == t.db.candidates[c := after.db.candidates[c]]
    && after.db.candidates[c] == t.db.candidates[c].(
         status := Confirmed, claimExpiresAt := None, nextAttemptAt := None, updatedAt := t.now)
    && after.db.skills == t.db.skills[k := Skill(e.user, SkillName(e), true, Some(c), 1, false)]
    && after.db.events == t.db.events && after.db.evidence == t.db.evidence
    && after == t.(db := after.db, promoters := t.promoters[0 := t.promoters[0].(stage := AfterCommit)])
  }

  lemma PromoteNew(s: System, waiting: System, ready: System, e: Origin, c: Id, k: Id)
    requires Init(s) && SkillSignal(e) && Reaches(s, ready) && k !in s.db.skills
    requires !NameTaken(s.db.skills, e.user, SkillName(e))
    requires Collected(s, waiting, c, e, 3, 0) && ReadyFor(ready, 0, c) && OnlyClaimed(waiting, ready, 0, c)
    ensures Learned(Apply(ready, ToPromote(0, k)), e, c, k) && Below(Apply(ready, ToPromote(0, k)), 3)
    ensures JustPromoted(Apply(ready, ToPromote(0, k)), e, c)
  {
    ReachedIsReachable(s, ready);
    var row := Proposed(waiting.db, e, 3, Pending, s.now);
    assert waiting.db.candidates == map[c := row];
    ProposedIs(waiting.db, e, s.now);
    assert ready.db.candidates[c].proposal == row.proposal && ready.db.candidates[c].attempts == 1;
    InsertNew(ready, e, c, k);
  }

  lemma ProposedIs(db: Db, e: Origin, now: int)
    requires SkillSignal(e)
    ensures var row := Proposed(db, e, 3, Pending, now);
            && row.proposal == Proposal(e.user, e.scope, SkillKind, SkillPayload(SkillName(e), None), e.signal.value.key)
            && row.attempts == 0 && row.evidenceCount == 3
  {
  }

  lemma InsertNew(t: System, e: Origin, c: Id, k: Id)
    requires Reachable(t) && SkillSignal(e) && ReadyFor(t, 0, c) && t.db.candidates.Keys == {c} && k !in t.db.skills
    requires t.db.candidates[c].proposal
          == Proposal(e.user, e.scope, SkillKind, SkillPayload(SkillName(e), None), e.signal.value.key)
    requires t.db.candidates[c].evidenceCount == 3 && !NameTaken(t.db.skills, e.user, SkillName(e))
    ensures Inserted(t, Apply(t, ToPromote(0, k)), e, c, k)
  {
    PromotionEffects.NewSkillLeaves(t, 0, k, SkillName(e));
  }

  /** The skill has been corrected: `c` is superseded, and `d` collects evidence for version 2. */
  ghost predicate Corrects(t: System, e: Origin, f: Origin, c: Id, d: Id, k: Id, n: nat) {
    && e.signal.Some? && f.signal.Some? && c != d && t.db.candidates.Keys == {c, d} && OfSignal(t, e, c) && OfSignal(t, f, d)
    && t.db.candidates[c].status == Superseded
    && t.db.candidates[d].status == (if n < 3 then Collecting else Pending)
    && t.db.candidates[d].attempts == 0 && t.db.candidates[d].nextAttemptAt == None
    && t.db.candidates[d].evidenceCount == n == |EvidenceOf(t.db.evidence, d)|
    && k in t.db.skills && t.db.skills[k].version == 1 && t.db.skills[k].name == SkillName(e)
    && t.db.candidates[d].proposal.payload == SkillPayload(SkillName(e), Some(Revises(k, 2)))
  }

  /** A correction by the user who taught the skill, in its scope, under any key. */
  predicate Follows(e: Origin, f: Origin) {
    SkillSignal(e) && SkillSignal(f) && f.isCorrection && f.user == e.user && f.scope == e.scope
  }

  lemma ClaimedIsReached(s: System, t: System, id: Id, w: Id, e: Origin)
    requires Reaches(s, t) && Fresh(t, id, w)
    ensures Reaches(s, Claimed(t, id, w, e))
  {
    var arrived := Apply(t, ToArrive(id, Arrival(e)));
    ReachesByStep(s, t, ToArrive(id, Arrival(e)));
    ReachesByStep(s, arrived, ToClaimEvent(w, id));
    ClaimArrival(t, id, w, e);
  }

  /** The transaction's own queries find the confirmed candidate, its active skill and no open candidate. */
  lemma CorrectionIsRead(t: System, u: System, e: Origin, f: Origin, c: Id, d: Id, k: Id)
    requires Learned(t, e, c, k) && Follows(e, f) && c != d
    requires u.db.candidates == t.db.candidates && u.db.skills == t.db.skills
    ensures ReadsOk(u.db, f, Reads(true, false, Some(Corrected(c, k)), None, d), u.now)
  {
  }

  lemma Correct(s: System, t: System, e: Origin, f: Origin, c: Id, d: Id, k: Id) returns (after: System)
    requires Init(s) && Reaches(s, t) && Learned(t, e, c, k) && Below(t, 3) && Follows(e, f) && c != d
    ensures Reaches(s, after) && Corrects(after, e, f, c, d, k, 1) && Below(after, 4)
    ensures after.promoters == t.promoters && t.db.candidates[c].(status := Superseded, updatedAt := t.now) == after.db.candidates[c]
    ensures after.db.skills == t.db.skills[k := t.db.skills[k].(archived := true)]
  {
    var r := Reads(true, false, Some(Corrected(c, k)), None, d);
    var u := Claimed(t, 3, 3, f);
    ClaimedIsReached(s, t, 3, 3, f);
    ClaimedForCorrection(t, u, e, f, c, k);
    ReachedIsReachable(s, u);
    CorrectionIsRead(t, u, e, f, c, d, k);
    CorrectionCommits(u, e, f, c, d, k);
    after := Apply(u, ToProcessEvent(3, r));
    ReachesByStep(s, u, ToProcessEvent(3, r));
    CorrectedIs(u, e, f, c, d, k);
    EventEffects.CorrectionLeaves(u, 3, r);
    OnlyMarked(u, 3, r);
  }

  lemma ClaimedForCorrection(t: System, u: System, e: Origin, f: Origin, c: Id, k: Id)
    requires Learned(t, e, c, k) && Below(t, 3) && u == Claimed(t, 3, 3, f)
    ensures Learned(u, e, c, k) && Below(u, 4) && u.db.candidates == t.db.candidates && u.db.skills == t.db.skills
    ensures u.promoters == t.promoters && u.now == t.now
    ensures 3 in u.processors && u.processors[3].snapshot.origin == f && u.processors[3].event == 3
         && !u.processors[3].committed
  {
    ClaimedFits(t, 3, 3, f);
  }

  lemma CorrectionCommits(u: System, e: Origin, f: Origin, c: Id, d: Id, k: Id)
    requires Reachable(u) && Learned(u, e, c, k) && Follows(e, f) && c != d
    requires 3 in u.processors && u.processors[3].snapshot.origin == f && !u.processors[3].committed
    requires ReadsOk(u.db, f, Reads(true, false, Some(Corrected(c, k)), None, d), u.now)
    ensures EventEffects.Commits(u, 3, Reads(true, false, Some(Corrected(c, k)), None, d))
  {
    EventEffects.CommitsExactlyWhen(u, 3, Reads(true, false, Some(Corrected(c, k)), None, d));
  }

  lemma CorrectedIs(u: System, e: Origin, f: Origin, c: Id, d: Id, k: Id)
    requires Reachable(u) && Learned(u, e, c, k) && Follows(e, f) && c != d
    requires 3 in u.processors && u.processors[3].snapshot.origin == f && !u.processors[3].committed
    requires EventEffects.Commits(u, 3, Reads(true, false, Some(Corrected(c, k)), None, d))
    ensures Corrects(Apply(u, ToProcessEvent(3, Reads(true, false, Some(Corrected(c, k)), None, d))), e, f, c, d, k, 1)
  {
    var r := Reads(true, false, Some(Corrected(c, k)), None, d);
    EventEffects.CorrectionLeaves(u, 3, r);
    EventEffects.EvidenceLeaves(u, 3, r);
    EventEffects.NewCandidateLeaves(u, 3, r);
    ReachableFits(u);
    EventEffects.OneEvidence(u.db, d, Observation(u.processors[3].event, f.signal.value.observationType));
  }

  /** A transaction numbers nothing anew. */
  lemma OnlyMarked(u: System, w: Id, r: Reads)
    requires Reachable(u) && EventEffects.Commits(u, w, r)
    ensures var after := Apply(u, ToProcessEvent(w, r));
            && after.db.events.Keys == u.db.events.Keys && after.processors.Keys == u.processors.Keys
            && after.claims == u.claims && after.promoters == u.promoters && after.now == u.now
            && forall row :: row in after.db.evidence ==> row in u.db.evidence || row.1.event == u.processors[w].event
  {
    EventEffects.ProcessLeaves(u, w, r);
    if EventEffects.Learns(u, w, r) {
      EventEffects.EvidenceLeaves(u, w, r);
    }
  }

  /** One more event under the key of the correction. */
  lemma CorrectAgain(s: System, t: System, e: Origin, f: Origin, c: Id, d: Id, k: Id, n: nat) returns (after: System)
    requires Init(s) && Reaches(s, t) && Follows(e, f) && 1 <= n < 3 && Corrects(t, e, f, c, d, k, n) && Below(t, 3 + n)
    ensures Reaches(s, after) && Corrects(after, e, f, c, d, k, n + 1) && Below(after, 4 + n)
  {
    var id, spare := 3 + n, c + d + 1;
    var r, o := Reads(true, false, None, Some(d), spare), Observation(id, f.signal.value.observationType);
    ReachedIsReachable(s, t);
    ReachableUnique(t);
    SupportedAgain(t, e, f, c, d, k, n, r, o);
    after := Observe(t, id, id, f, r);
    ReachesOn(s, t, after);
    AgainIs(t, after, e, f, c, d, k, n, o);
  }

  lemma AgainIs(t: System, after: System, e: Origin, f: Origin, c: Id, d: Id, k: Id, n: nat, o: Observation)
    requires 1 <= n < 3 && Corrects(t, e, f, c, d, k, n) && Below(t, 3 + n) && o.event == 3 + n
    requires after.db.evidence == t.db.evidence + {(d, o)} && SameElse(t, after, 3 + n, 3 + n)
    requires after.db.candidates == t.db.candidates[d := t.db.candidates[d].(
               evidenceCount := n + 1, updatedAt := t.now, status := if n + 1 < 3 then Collecting else Pending)]
    ensures Corrects(after, e, f, c, d, k, n + 1) && Below(after, 4 + n)
  {
    EvidenceOfMore(t.db.evidence, d, o);
    assert (d, o) !in t.db.evidence;
  }

  lemma SupportedAgain(t: System, e: Origin, f: Origin, c: Id, d: Id, k: Id, n: nat, r: Reads, o: Observation)
    requires Follows(e, f) && 1 <= n < 3 && Corrects(t, e, f, c, d, k, n) && Below(t, 3 + n) && UniqueStatus(t.db.candidates)
    requires r == Reads(true, false, None, Some(d), c + d + 1) && o.event == 3 + n
    ensures ReadsOk(t.db, f, r, t.now)
    ensures SupportedRow(t.db, f, r, o, t.now)
         == t.db.candidates[d].(evidenceCount := n + 1, updatedAt := t.now, status := if n + 1 < 3 then Collecting else Pending)
    ensures UniqueStatus(t.db.candidates[d := SupportedRow(t.db, f, r, o, t.now)])
  {
    EvidenceOfMore(t.db.evidence, d, o);
    assert (d, o) !in t.db.evidence;
    PutIsUnique(t.db.candidates, d, SupportedRow(t.db, f, r, o, t.now));
  }

  /** Version 2, with the candidate of the correction as its source. */
  predicate Revised(t: System, e: Origin, f: Origin, c: Id, d: Id, k: Id) {
    && e.signal.Some? && f.signal.Some? && k in t.db.skills && t.db.skills[k].version == 2 && !t.db.skills[k].archived
    && t.db.skills[k].source == Some(d) && t.db.skills[k].name == SkillName(e)
    && c != d && t.db.candidates.Keys == {c, d} && OfSignal(t, e, c) && OfSignal(t, f, d)
    && t.db.candidates[c].status == Superseded && t.db.candidates[d].status == Confirmed
  }

  lemma Revise(s: System, t: System, e: Origin, f: Origin, c: Id, d: Id, k: Id) returns (after: System)
    requires Init(s) && Reaches(s, t) && Corrects(t, e, f, c, d, k, 3) && t.promoters.Keys == {0}
    ensures Reaches(s, after) && Revised(after, e, f, c, d, k)
  {
    var ready := ToReady(s, t, 1, d);
    ReachedIsReachable(s, ready);
    PromotionEffects.RevisionLeaves(ready, 1, 0, SkillName(e), k, 2);
    after := Apply(ready, ToPromote(1, 0));
    ReachesByStep(s, ready, ToPromote(1, 0));
  }

  /** Three events teach a skill, three more correct it, and it reaches version 2, active again. If all have one key,
      every correction of it from then on throws. */
  lemma CorrectedSkillReachesTwo(s: System, e: Origin, f: Origin, c: Id, d: Id, k: Id) returns (t: System)
    requires Init(s) && Follows(e, f) && c != d && k !in s.db.skills
    requires !NameTaken(s.db.skills, e.user, SkillName(e))
    ensures Reaches(s, t) && Revised(t, e, f, c, d, k)
    ensures f.signal.value.key == e.signal.value.key ==>
              forall w, r :: EventEffects.Corrects(t, w, r, d) ==> Apply(t, ToProcessEvent(w, r)) == t
  {
    var zero := LearnSkill(s, e, c, k, d);
    var one := Correct(s, zero, e, f, c, d, k);
    var two := CorrectAgain(s, one, e, f, c, d, k, 1);
    var three := CorrectAgain(s, two, e, f, c, d, k, 2);
    t := Revise(s, three, e, f, c, d, k);
    ReachedIsReachable(s, t);
    forall w, r | f.signal.value.key == e.signal.value.key && EventEffects.Corrects(t, w, r, d)
      ensures Apply(t, ToProcessEvent(w, r)) == t
    {
      EventEffects.SecondCorrectionThrows(t, w, r, c);
    }
  }

  // ---- A run in which a confirmed candidate has an archived skill ----

  /** After the correction, the promoter of candidate `c` comes to its catch block, and `c` waits again. */
  lemma CatchAfterCorrection(s: System, t: System, e: Origin, f: Origin, c: Id, d: Id, k: Id) returns (after: System)
    requires Init(s) && Reaches(s, t) && Corrects(t, e, f, c, d, k, 1) && JustPromoted(t, e, c) && t.promoters.Keys == {0}
    ensures Reaches(s, after) && after.promoters == map[] && after.db.skills == t.db.skills
    ensures after.db.candidates.Keys == {c, d} && after.db.candidates[d] == t.db.candidates[d]
    ensures after.db.candidates[c].proposal == t.db.candidates[c].proposal && after.db.candidates[c].evidenceCount == 3
    ensures PromotionEffects.MayBePromoted(after, c)
  {
    ReachedIsReachable(s, t);
    PromotionEffects.FailLeaves(t, 0);
    var failed := Apply(t, ToFailPromotion(0));
    assert PromotionEffects.Free(t.db.candidates, c, Pending);
    ReachesByStep(s, t, ToFailPromotion(0));
    after := Apply(failed, ToTick(t.now + 30_000));
    ReachesByStep(s, failed, ToTick(t.now + 30_000));
    assert failed.db.candidates[c].nextAttemptAt == Some(t.now + 30_000) by {
      assert Pow2(0) == 1;
    }
  }

  /** The second promotion finds the candidate's own skill, and leaves it archived. */
  lemma PromoteAgain(s: System, t: System, e: Origin, c: Id, d: Id, k: Id) returns (after: System)
    requires Init(s) && Reaches(s, t) && e.signal.Some? && c != d && t.db.candidates.Keys == {c, d} && t.promoters == map[]
    requires PromotionEffects.MayBePromoted(t, c) && t.db.candidates[c].evidenceCount == 3
    requires t.db.candidates[c].proposal.user == e.user && t.db.candidates[d].status == Collecting
    requires t.db.candidates[c].proposal.payload == SkillPayload(SkillName(e), None)
    requires k in t.db.skills && t.db.skills[k].user == e.user && t.db.skills[k].name == SkillName(e)
    requires t.db.skills[k].source == Some(c)
    ensures Reaches(s, after) && after.db.skills == t.db.skills && c in after.db.candidates
    ensures after.db.candidates[c].status == Confirmed
  {
    var ready := ToReady(s, t, 1, c);
    ReachedIsReachable(s, ready);
    assert OwnSkill(ready.db.skills[k], e.user, SkillName(e), c);
    PromotionEffects.OwnSkillLeaves(ready, 1, k, SkillName(e), k);
    assert PromotionEffects.Free(ready.db.candidates, c, Confirmed);
    after := Apply(ready, ToPromote(1, k));
    ReachesByStep(s, ready, ToPromote(1, k));
  }

  /** A skill is learned and corrected, then its first promoter comes to its catch block, and another one promotes the
      candidate again: it is confirmed, and the source of a skill that stays archived. */
  lemma ConfirmedButArchived(s: System, e: Origin, f: Origin, c: Id, d: Id, k: Id) returns (t: System)
    requires Init(s) && Follows(e, f) && c != d && k !in s.db.skills
    requires !NameTaken(s.db.skills, e.user, SkillName(e))
    ensures Reaches(s, t) && c in t.db.candidates && t.db.candidates[c].status == Confirmed
    ensures k in t.db.skills && t.db.skills[k].source == Some(c) && t.db.skills[k].archived && t.db.skills[k].version == 1
  {
    var zero := LearnSkill(s, e, c, k, d);
    var one := Correct(s, zero, e, f, c, d, k);
    var two := CatchAfterCorrection(s, one, e, f, c, d, k);
    t := PromoteAgain(s, two, e, c, d, k);
  }
}

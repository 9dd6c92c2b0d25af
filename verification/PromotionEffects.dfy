/** What each step of a learning worker leaves in the tables, column by column, in any state that a run can reach. */
module PromotionEffects {
  import opened Option
  import opened Backoff
  import opened LearningTables
  import opened LearningSystem
  import opened LearningReach
  import EvidenceCounts
  import PromotionClaims
  import SkillVersions

  /** No other candidate of the user and key of candidate `c` has the status. */
  ghost predicate Free(candidates: map<Id, Candidate>, c: Id, status: CandidateStatus)
    requires c in candidates
  {
    forall d {:trigger candidates[d]} :: d in candidates && d != c ==>
      !(candidates[d].proposal.user == candidates[c].proposal.user && candidates[d].proposal.key == candidates[c].proposal.key
        && candidates[d].status == status)
  }

  lemma FreeIs(candidates: map<Id, Candidate>, c: Id, row: Candidate)
    requires UniqueStatus(candidates) && c in candidates && row.proposal == candidates[c].proposal
    ensures UniqueStatus(candidates[c := row]) <==> Free(candidates, c, row.status)
  {
    PutIsUniqueExactlyWhen(candidates, c, row);
    if forall d :: !Rival(candidates, c, row, d) {
      assert forall d :: d in candidates && d != c ==> !Rival(candidates, c, row, d);
    }
  }

  // ---- Claim and attempt row ----

  /** A skill that waits, is due, and was tried less than eight times. */
  predicate MayBePromoted(t: System, c: Id) {
    && c in t.db.candidates && t.db.candidates[c].proposal.kind == SkillKind && t.db.candidates[c].status == Pending
    && t.db.candidates[c].attempts < 8
    && (t.db.candidates[c].nextAttemptAt.None? || t.db.candidates[c].nextAttemptAt.value <= t.now)
  }

  lemma ClaimLeaves(t: System, w: Id, c: Id)
    requires Reachable(t) && w !in t.promoters
    ensures var after := Apply(t, ToClaimCandidate(w, c));
            if MayBePromoted(t, c) && Free(t.db.candidates, c, Processing) then
              var row := t.db.candidates[c].(status := Processing, claimExpiresAt := Some(t.now + 300_000),
                                             attempts := t.db.candidates[c].attempts + 1, updatedAt := t.now);
              after == t.(db := t.db.(candidates := t.db.candidates[c := row]),
                          promoters := t.promoters[w := Promoter(c, row, t.now + 300_000, BeforeAttemptRow)])
            else after == t
  {
    ReachableUnique(t);
    if c in t.db.candidates {
      FreeIs(t.db.candidates, c, ClaimedCandidate(t.db.candidates[c], t.now));
    }
  }

  lemma RecordLeaves(t: System, w: Id)
    requires Reachable(t) && w in t.promoters && t.promoters[w].stage == BeforeAttemptRow
    ensures var after, key := Apply(t, ToRecordAttempt(w)), (t.promoters[w].candidate, t.promoters[w].snapshot.attempts);
            && key !in t.db.attempts
            && after == t.(db := t.db.(attempts := t.db.attempts[key := AttemptRunning]),
                           promoters := t.promoters[w := t.promoters[w].(stage := InTry)])
  {
    var s, steps :| Init(s) && Run(s, steps) == t;
    PromotionClaims.AttemptRowIsNew(s, steps, w);
  }

  /** The promoter's attempt row, if it is there, gets the status. */
  function Marked(t: System, w: Id, status: AttemptStatus): map<(Id, nat), AttemptStatus>
    requires w in t.promoters
  {
    var key := (t.promoters[w].candidate, t.promoters[w].snapshot.attempts);
    if key in t.db.attempts then t.db.attempts[key := status] else t.db.attempts
  }

  // ---- Refusal and catch block ----

  /** A refused candidate collects again, whatever it has become in the meantime. */
  lemma RefuseLeaves(t: System, w: Id)
    requires Reachable(t) && w in t.promoters && t.promoters[w].stage == InTry
    ensures var after, c := Apply(t, ToRefusePromotion(w)), t.promoters[w].candidate;
            && c in t.db.candidates
            && if Free(t.db.candidates, c, Collecting)
               then after == t.(db := t.db.(candidates := t.db.candidates[c := t.db.candidates[c].(
                                              status := Collecting, claimExpiresAt := None, updatedAt := t.now)],
                                            attempts := Marked(t, w, AttemptSuperseded)),
                                promoters := t.promoters - {w})
               else after == t
  {
    ReachableUnique(t);
    PromoterRow(t, w);
    var c := t.promoters[w].candidate;
    FreeIs(t.db.candidates, c, Refused(t.db, c, 0, t.now).candidates[c]);
  }

  /** A failed promotion waits again, min(3600, 30 * 2^(n-1)) seconds from now, after attempt n. */
  lemma FailLeaves(t: System, w: Id)
    requires Reachable(t) && w in t.promoters && t.promoters[w].stage != BeforeAttemptRow
    ensures var after, c, n := Apply(t, ToFailPromotion(w)), t.promoters[w].candidate, t.promoters[w].snapshot.attempts;
            && c in t.db.candidates && after == t.(db := after.db, promoters := t.promoters - {w})
            && if Free(t.db.candidates, c, Pending)
               then after.db == t.db.(candidates := t.db.candidates[c := t.db.candidates[c].(
                                        status := Pending, claimExpiresAt := None, updatedAt := t.now,
                                        nextAttemptAt := Some(t.now + Min(3_600, 30 * Pow2(if n == 0 then 0 else n - 1)) * 1_000))],
                                      attempts := Marked(t, w, AttemptFailed))
               else after.db == t.db
  {
    ReachableUnique(t);
    PromoterRow(t, w);
    var c := t.promoters[w].candidate;
    FreeIs(t.db.candidates, c, FailedPromotion(t.db, c, t.promoters[w].snapshot.attempts, t.now).candidates[c]);
  }

  /** Attempt row, decision, catch block: a promoter takes these steps in this order or not at all, and promotes only
      what at least three events support. */
  lemma OutOfTurn(t: System, w: Id, row: Id)
    requires w in t.promoters
    ensures t.promoters[w].stage != BeforeAttemptRow ==> Apply(t, ToRecordAttempt(w)) == t
    ensures t.promoters[w].stage == BeforeAttemptRow ==> Apply(t, ToFailPromotion(w)) == t
    ensures t.promoters[w].stage != InTry ==> Apply(t, ToRefusePromotion(w)) == t && Apply(t, ToPromote(w, row)) == t
    ensures t.promoters[w].snapshot.evidenceCount < 3 ==> Apply(t, ToPromote(w, row)) == t
  {
  }

  // ---- Promotion ----

  /** The promotion has gone through: its candidate is confirmed and its attempt has succeeded. */
  ghost predicate Confirms(t: System, after: System, w: Id)
    requires w in t.promoters && t.promoters[w].candidate in t.db.candidates
  {
    var c := t.promoters[w].candidate;
    && after.db.candidates == t.db.candidates[c := t.db.candidates[c].(
         status := Confirmed, claimExpiresAt := None, nextAttemptAt := None, updatedAt := t.now)]
    && after.db.attempts == Marked(t, w, AttemptSucceeded)
    && after == t.(db := after.db, promoters := t.promoters[w := t.promoters[w].(stage := AfterCommit)])
    && after.db.events == t.db.events && after.db.observations == t.db.observations && after.db.evidence == t.db.evidence
  }

  lemma PromoteIs(t: System, w: Id, row: Id)
    requires UniqueStatus(t.db.candidates) && CanPromote(t, w, row)
    ensures var after, p := Apply(t, ToPromote(w, row)), t.promoters[w];
            var m := PromotedSkill(t.db, p.candidate, p.snapshot.proposal, row);
            if m.Some? && Free(t.db.candidates, p.candidate, Confirmed)
            then Confirms(t, after, w) && after.db.skills == t.db.skills[m.value.0 := m.value.1]
                 && after.db.revisions
                    == if (m.value.0, m.value.1.version) in t.db.revisions then t.db.revisions
                       else t.db.revisions[(m.value.0, m.value.1.version) := p.candidate]
            else after == t
  {
    var p := t.promoters[w];
    FreeIs(t.db.candidates, p.candidate, ConfirmedRow(t, p.candidate));
    var m := PromotedSkill(t.db, p.candidate, p.snapshot.proposal, row);
    if m.Some? {
      PromotedIs(t, p.candidate, p.snapshot.attempts, m.value);
    }
  }

  function ConfirmedRow(t: System, c: Id): Candidate
    requires c in t.db.candidates
  {
    t.db.candidates[c].(status := Confirmed, claimExpiresAt := None, nextAttemptAt := None, updatedAt := t.now)
  }

  lemma PromotedIs(t: System, c: Id, n: nat, m: (Id, Skill))
    requires c in t.db.candidates
    ensures var after := Promoted(t.db, c, n, m, t.now);
            && after.candidates == t.db.candidates[c := ConfirmedRow(t, c)]
            && after.attempts == (if (c, n) in t.db.attempts then t.db.attempts[(c, n) := AttemptSucceeded] else t.db.attempts)
            && after.skills == t.db.skills[m.0 := m.1]
            && after.revisions == (if (m.0, m.1.version) in t.db.revisions then t.db.revisions
                                   else t.db.revisions[(m.0, m.1.version) := c])
            && after.events == t.db.events && after.observations == t.db.observations && after.evidence == t.db.evidence
  {
  }

  /** The skill that a candidate revises is its user's, and its next version is not there yet. */
  lemma RevisedSkill(t: System, c: Id, k: Id)
    requires Reachable(t) && c in t.db.candidates && t.db.candidates[c].proposal.payload.SkillPayload?
    requires t.db.candidates[c].proposal.payload.revises.Some? && t.db.candidates[c].proposal.payload.revises.value.skill == k
    ensures k in t.db.skills && t.db.skills[k].learned && t.db.skills[k].user == t.db.candidates[c].proposal.user
    ensures t.db.skills[k].name == t.db.candidates[c].proposal.payload.name
    ensures (k, t.db.skills[k].version + 1) !in t.db.revisions
  {
    ReachableFits(t);
    assert ProposalFits(t.db.skills, t.db.candidates[c].proposal);
    assert SkillVersions.RowsMatch(t.db, k);
  }

  /** A revision goes through exactly when the skill's version has not moved and the unique key lets it: the skill is
      one version higher and active again, with the candidate as its source and everything else as it was. */
  lemma RevisionLeaves(t: System, w: Id, row: Id, name: string, k: Id, v: int)
    requires Reachable(t) && CanPromote(t, w, row)
    requires t.promoters[w].snapshot.proposal.payload == SkillPayload(name, Some(Revises(k, v)))
    ensures var after, c := Apply(t, ToPromote(w, row)), t.promoters[w].candidate;
            && k in t.db.skills && t.db.skills[k].learned && t.db.skills[k].name == name
            && t.db.skills[k].user == t.promoters[w].snapshot.proposal.user
            && if v == t.db.skills[k].version + 1 && Free(t.db.candidates, c, Confirmed)
               then Confirms(t, after, w)
                    && after.db.skills == t.db.skills[k := t.db.skills[k].(version := t.db.skills[k].version + 1,
                                                                           source := Some(c), archived := false)]
                    && (k, v) !in t.db.revisions && after.db.revisions == t.db.revisions[(k, v) := c]
               else after == t
  {
    ReachableUnique(t);
    PromoterRow(t, w);
    RevisedSkill(t, t.promoters[w].candidate, k);
    PromoteIs(t, w, row);
  }

  /** A new skill is inserted at version 1 unless the user has one of that name. */
  lemma NewSkillLeaves(t: System, w: Id, row: Id, name: string)
    requires Reachable(t) && CanPromote(t, w, row) && t.promoters[w].snapshot.proposal.payload == SkillPayload(name, None)
    requires forall k :: k in t.db.skills ==>
               !(t.db.skills[k].user == t.promoters[w].snapshot.proposal.user && t.db.skills[k].name == name)
    ensures var after, c := Apply(t, ToPromote(w, row)), t.promoters[w].candidate;
            if Free(t.db.candidates, c, Confirmed)
            then Confirms(t, after, w) && row !in t.db.skills
                 && after.db.skills == t.db.skills[row := Skill(t.promoters[w].snapshot.proposal.user, name, true, Some(c), 1, false)]
                 && after.db.revisions == t.db.revisions[(row, 1) := c]
            else after == t
  {
    ReachableUnique(t);
    PromoteIs(t, w, row);
    assert !NameTaken(t.db.skills, t.promoters[w].snapshot.proposal.user, name);
    FreshRowHasNone(t, row);
  }

  lemma FreshRowHasNone(t: System, row: Id)
    requires Reachable(t) && row !in t.db.skills
    ensures (row, 1) !in t.db.revisions
  {
    ReachableFits(t);
  }

  /** If the user has one, the promotion goes through only where that is the candidate's own, from an earlier success,
      and leaves it as it is: at version 1, and archived if it was. */
  lemma OwnSkillLeaves(t: System, w: Id, row: Id, name: string, k: Id)
    requires Reachable(t) && CanPromote(t, w, row) && t.promoters[w].snapshot.proposal.payload == SkillPayload(name, None)
    requires k in t.db.skills && t.db.skills[k].user == t.promoters[w].snapshot.proposal.user && t.db.skills[k].name == name
    ensures var after, c := Apply(t, ToPromote(w, row)), t.promoters[w].candidate;
            if t.db.skills[k].source == Some(c) && Free(t.db.candidates, c, Confirmed)
            then Confirms(t, after, w) && after.db.skills == t.db.skills && after.db.revisions == t.db.revisions
                 && t.db.skills[k].version == 1 && t.db.skills[k].learned
            else after == t
  {
    ReachableUnique(t);
    PromoterRow(t, w);
    PromoteIs(t, w, row);
    var p := t.promoters[w];
    assert NameTaken(t.db.skills, p.snapshot.proposal.user, name);
    if row in t.db.skills && OwnSkill(t.db.skills[row], p.snapshot.proposal.user, name, p.candidate) {
      OneOfAName(t, k, row);
    }
    if t.db.skills[k].source == Some(p.candidate) {
      assert OwnSkill(t.db.skills[k], p.snapshot.proposal.user, name, p.candidate);
      OwnSkillIsFirst(t, k, p.candidate);
      assert t.db.skills[k := t.db.skills[k]] == t.db.skills;
    }
  }

  lemma OneOfAName(t: System, k: Id, j: Id)
    requires Reachable(t) && k in t.db.skills && j in t.db.skills
    requires t.db.skills[j].user == t.db.skills[k].user && t.db.skills[j].name == t.db.skills[k].name
    ensures j == k
  {
    ReachableFits(t);
  }

  lemma OwnSkillIsFirst(t: System, k: Id, c: Id)
    requires Reachable(t) && k in t.db.skills && t.db.skills[k].source == Some(c)
    requires c in t.db.candidates && t.db.candidates[c].proposal.payload.SkillPayload?
    requires t.db.candidates[c].proposal.payload.revises.None?
    ensures t.db.skills[k].learned && t.db.skills[k].version == 1 && (k, 1) in t.db.revisions
  {
    ReachableFits(t);
    var db := t.db;
    assert SkillVersions.RowsMatch(db, k);
    assert SkillVersions.Proposes(db, db.revisions[(k, db.skills[k].version)], k, db.skills[k].version);
  }

  /** Memories and automations are not promoted. */
  lemma OthersAreNotPromoted(t: System, w: Id, row: Id)
    requires Reachable(t) && CanPromote(t, w, row) && t.promoters[w].snapshot.proposal.payload == OtherPayload
    ensures Apply(t, ToPromote(w, row)) == t
  {
    ReachableUnique(t);
    PromoteIs(t, w, row);
  }

  // ---- Sweeps ----

  predicate Twins(candidates: map<Id, Candidate>, a: Id, b: Id) {
    && a in candidates && b in candidates && candidates[b].status == Pending
    && candidates[a].proposal.user == candidates[b].proposal.user && candidates[a].proposal.key == candidates[b].proposal.key
  }

  /** A promotion whose claim has run out. */
  predicate RanOut(candidates: map<Id, Candidate>, now: int, c: Id) {
    && c in candidates && candidates[c].status == Processing
    && candidates[c].claimExpiresAt.Some? && candidates[c].claimExpiresAt.value < now
  }

  /** One that has been under way for over fifteen minutes. */
  predicate WentStale(candidates: map<Id, Candidate>, now: int, c: Id) {
    c in candidates && candidates[c].status == Processing && candidates[c].updatedAt < now - 900_000
  }

  /** The rows that go back to `pending`, with their claims cleared. */
  function GivenBack(candidates: map<Id, Candidate>, now: int): map<Id, Candidate> {
    map c | c in candidates ::
      if RanOut(candidates, now, c) then candidates[c].(status := Pending, claimExpiresAt := None, updatedAt := now) else candidates[c]
  }

  /** The other sweep leaves the claims as they are. */
  function TakenBack(candidates: map<Id, Candidate>, now: int): map<Id, Candidate> {
    map c | c in candidates ::
      if WentStale(candidates, now, c) then candidates[c].(status := Pending, updatedAt := now) else candidates[c]
  }

  /** The expiry sweep gives back all promotions whose claim has run out, or none if one of them has a pending twin. */
  lemma SweepExpiredLeaves(t: System)
    requires Reachable(t)
    ensures var after, rows := Apply(t, ToSweepExpired), t.db.candidates;
            if exists a, b :: RanOut(rows, t.now, a) && Twins(rows, a, b) then after == t
            else after == t.(db := t.db.(candidates := GivenBack(rows, t.now)))
  {
    ReachableUnique(t);
    var rows := t.db.candidates;
    assert SweepExpired(rows, t.now) == GivenBack(rows, t.now);
    SweepIs(rows, GivenBack(rows, t.now), set c | c in rows && RanOut(rows, t.now, c));
  }

  lemma SweepStaleLeaves(t: System)
    requires Reachable(t)
    ensures var after, rows := Apply(t, ToSweepStale), t.db.candidates;
            if exists a, b :: WentStale(rows, t.now, a) && Twins(rows, a, b) then after == t
            else after == t.(db := t.db.(candidates := TakenBack(rows, t.now)))
  {
    ReachableUnique(t);
    var rows := t.db.candidates;
    assert SweepStale(rows, t.now) == TakenBack(rows, t.now);
    SweepIs(rows, TakenBack(rows, t.now), set c | c in rows && WentStale(rows, t.now, c));
  }

  /** Rows `picked` go from `processing` to `pending`, and clash with nothing but a pending twin. */
  lemma SweepIs(before: map<Id, Candidate>, after: map<Id, Candidate>, picked: set<Id>)
    requires UniqueStatus(before) && after.Keys == before.Keys && picked <= before.Keys
    requires forall c :: c in before ==>
               if c in picked then before[c].status == Processing && after[c].status == Pending && after[c].proposal == before[c].proposal
               else after[c] == before[c]
    ensures UniqueStatus(after) <==> !exists a, b :: a in picked && Twins(before, a, b)
  {
    if a, b :| a in picked && Twins(before, a, b) {
      assert Clash(after, a, b);
    } else {
      forall a, b | a in after && b in after
        ensures !Clash(after, a, b)
      {
        assert !Clash(before, a, b);
        assert a in picked ==> !Twins(before, a, b);
        assert b in picked ==> !Twins(before, b, a);
      }
    }
  }
}

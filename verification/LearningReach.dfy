/** The states that runs of the two workers lead to, and what all of them have in common. */
module LearningReach {
  import opened Option
  import opened LearningTables
  import opened LearningSystem
  import EvidenceCounts
  import EventClaims
  import PromotionClaims
  import SkillVersions

  /** Some run leads here. */
  ghost predicate Reachable(t: System) {
    exists s, steps :: Init(s) && Run(s, steps) == t
  }

  lemma ReachableOn(t: System, steps: seq<Step>)
    requires Reachable(t)
    ensures Reachable(Run(t, steps))
  {
    var s, before :| Init(s) && Run(s, before) == t;
    EvidenceCounts.RunSplit(s, before, steps);
  }

  /** A proposed revision is of a learned skill of the candidate's user, under its name. */
  predicate ProposalFits(skills: map<Id, Skill>, p: Proposal) {
    p.payload.SkillPayload? && p.payload.revises.Some? ==>
      var k := p.payload.revises.value.skill;
      k in skills && skills[k].learned && skills[k].user == p.user && skills[k].name == p.payload.name
  }

  ghost predicate ProposalsFit(db: Db) {
    forall c :: c in db.candidates ==> ProposalFits(db.skills, db.candidates[c].proposal)
  }

  lemma CorrectedSkillIsOwn(db: Db, e: Origin, m: Corrected)
    requires SkillVersions.Versioned(db) && ActiveLearned(db, e, m)
    ensures db.skills[m.skill].learned && db.skills[m.skill].user == e.user
  {
    assert SkillVersions.RowsMatch(db, m.skill);
    var r := (m.skill, db.skills[m.skill].version);
    assert r in db.revisions && db.revisions[r] == m.candidate;
    assert SkillVersions.Proposes(db, m.candidate, r.0, r.1);
  }

  lemma NewRowFits(db: Db, id: Id, e: Origin, r: Reads, now: int, c: Id)
    requires SkillVersions.Versioned(db) && (e.signal.Some? && r.allowed && !r.suppressed ==> ReadsOk(db, e, r, now))
    requires c in Process(db, id, e, r, now).db.candidates && c !in db.candidates
    ensures ProposalFits(db.skills, Process(db, id, e, r, now).db.candidates[c].proposal)
  {
    assert e.signal.Some? && r.allowed && !r.suppressed;
    NewRowIsNew(db, id, e, r, now, c);
    ChosenRowFits(db, e, r, now);
  }

  /** A row that the transaction adds proposes what the chosen one does. */
  lemma NewRowIsNew(db: Db, id: Id, e: Origin, r: Reads, now: int, c: Id)
    requires e.signal.Some? && r.allowed && !r.suppressed && ReadsOk(db, e, r, now)
    requires c in Process(db, id, e, r, now).db.candidates && c !in db.candidates
    ensures r.existing.None? && c == r.newId && c in Chosen(db, e, r, now).candidates
    ensures Process(db, id, e, r, now).db.candidates[c].proposal == Chosen(db, e, r, now).candidates[c].proposal
  {
  }

  lemma ChosenRowFits(db: Db, e: Origin, r: Reads, now: int)
    requires SkillVersions.Versioned(db) && e.signal.Some? && ReadsOk(db, e, r, now) && r.existing.None?
    ensures ProposalFits(db.skills, Chosen(db, e, r, now).candidates[r.newId].proposal)
  {
    if r.corrected.Some? {
      CorrectedSkillIsOwn(db, e, r.corrected.value);
    }
  }

  lemma NewRowsFit(s: System, step: Step, c: Id)
    requires SkillVersions.Versioned(s.db) && c in Apply(s, step).db.candidates && c !in s.db.candidates
    ensures ProposalFits(s.db.skills, Apply(s, step).db.candidates[c].proposal)
  {
    match step
    case ToProcessEvent(w, r) =>
      NewRowFits(s.db, s.processors[w].event, s.processors[w].snapshot.origin, r, s.now, c);
    case _ =>
      EvidenceCounts.StepIsQuiet(s, step);
      assert false;
  }

  lemma StepKeepsProposals(s: System, step: Step)
    requires SkillVersions.All(s) && ProposalsFit(s.db)
    ensures ProposalsFit(Apply(s, step).db)
  {
    EvidenceCounts.StepKeeps(s, step);
    SkillVersions.StepKeepsAll(s, step);
    var after := Apply(s, step).db;
    forall c | c in after.candidates
      ensures ProposalFits(after.skills, after.candidates[c].proposal)
    {
      if c in s.db.candidates {
        assert ProposalFits(s.db.skills, s.db.candidates[c].proposal);
        assert EvidenceCounts.Extended(s.db.candidates[c], after.candidates[c]);
      } else {
        NewRowsFit(s, step, c);
      }
    }
  }

  lemma {:induction false} RunKeepsProposals(s: System, steps: seq<Step>)
    requires SkillVersions.All(s) && ProposalsFit(s.db)
    ensures ProposalsFit(Run(s, steps).db)
    decreases |steps|
  {
    if steps != [] {
      SkillVersions.StepKeepsAll(s, steps[0]);
      StepKeepsProposals(s, steps[0]);
      RunKeepsProposals(Apply(s, steps[0]), steps[1..]);
    }
  }

  lemma ReachableFits(t: System)
    requires Reachable(t)
    ensures SkillVersions.All(t) && UniqueStatus(t.db.candidates) && ProposalsFit(t.db)
  {
    var s, steps :| Init(s) && Run(s, steps) == t;
    SkillVersions.RunKeepsAll(s, steps);
    PromotionClaims.RunKeepsUnique(s, steps);
    RunKeepsProposals(s, steps);
  }

  lemma ReachableUnique(t: System)
    requires Reachable(t)
    ensures UniqueStatus(t.db.candidates)
  {
    ReachableFits(t);
  }

  /** Workers hold rows that exist, with columns that never change. */
  lemma PromoterRow(t: System, w: Id)
    requires Reachable(t) && w in t.promoters
    ensures t.promoters[w].candidate in t.db.candidates
    ensures t.db.candidates[t.promoters[w].candidate].proposal == t.promoters[w].snapshot.proposal
  {
    ReachableFits(t);
    assert EvidenceCounts.PromoterFits(t.db.candidates, t.promoters[w]);
  }

  lemma ProcessorRow(t: System, w: Id)
    requires Reachable(t) && w in t.processors
    ensures t.processors[w].event in t.db.events
    ensures t.db.events[t.processors[w].event].origin == t.processors[w].snapshot.origin
  {
    ReachableFits(t);
    assert EvidenceCounts.ProcessorFits(t.db.events, t.processors[w]);
  }

  /** A row that takes the place of another one, or comes in new. */
  predicate Rival(candidates: map<Id, Candidate>, c: Id, row: Candidate, d: Id) {
    && d in candidates && d != c && candidates[d].proposal.user == row.proposal.user
    && candidates[d].proposal.key == row.proposal.key && candidates[d].status == row.status
  }

  lemma PutIsUniqueExactlyWhen(candidates: map<Id, Candidate>, c: Id, row: Candidate)
    requires UniqueStatus(candidates)
    ensures UniqueStatus(candidates[c := row]) <==> forall d :: !Rival(candidates, c, row, d)
  {
    var after := candidates[c := row];
    if UniqueStatus(after) {
      forall d
        ensures !Rival(candidates, c, row, d)
      {
        if Rival(candidates, c, row, d) {
          assert Clash(after, c, d);
        }
      }
    }
    if forall d :: !Rival(candidates, c, row, d) {
      forall a, b | a in after && b in after
        ensures !Clash(after, a, b)
      {
        if a != c && b != c {
          assert !Clash(candidates, a, b);
        } else if a == c && b != c {
          assert !Rival(candidates, c, row, b);
        } else if b == c && a != c {
          assert !Rival(candidates, c, row, a);
        }
      }
    }
  }
}

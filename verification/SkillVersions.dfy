/** Learned skills under stale promoters and retries after a committed success: versions grow one at
    a time, revision rows have no gap, and a candidate is the source of one revision at most. */
module SkillVersions {
  import opened Option
  import opened LearningTables
  import opened LearningSystem
  import opened EvidenceCounts

  /** Candidate `c` proposes exactly version `v` of skill `k`. */
  ghost predicate Proposes(db: Db, c: Id, k: Id, v: int)
    requires k in db.skills
  {
    && c in db.candidates
    && db.candidates[c].proposal.user == db.skills[k].user
    && db.candidates[c].evidenceCount >= MIN_EVIDENCE
    && match db.candidates[c].proposal.payload
       case OtherPayload => false
       case SkillPayload(name, None) => v == 1 && name == db.skills[k].name
       case SkillPayload(name, Some(r)) => r == Revises(k, v) && v >= 2
  }

  ghost predicate RowsMatch(db: Db, k: Id)
    requires k in db.skills
  {
    && db.skills[k].version >= 1
    && (forall v :: (k, v) in db.revisions <==> 1 <= v <= db.skills[k].version)
    && (k, db.skills[k].version) in db.revisions
    && db.skills[k].source == Some(db.revisions[(k, db.skills[k].version)])
  }

  predicate NamesUnique(skills: map<Id, Skill>) {
    forall a, b :: a in skills && b in skills && a != b ==>
      skills[a].user != skills[b].user || skills[a].name != skills[b].name
  }

  ghost predicate Versioned(db: Db) {
    && NamesUnique(db.skills)
    && (forall r :: r in db.revisions ==>
          r.0 in db.skills && (db.skills[r.0].learned ==> Proposes(db, db.revisions[r], r.0, r.1)))
    && (forall k :: k in db.skills && db.skills[k].learned ==> RowsMatch(db, k))
    && (forall k :: k in db.skills && !db.skills[k].learned ==> db.skills[k].source == None)
  }

  /** What one step may do to the skills: a new one starts at version 1, an old one moves up by one
      version or none, and one that people wrote stays as it is. */
  ghost predicate SkillStep(a: map<Id, Skill>, b: map<Id, Skill>) {
    && (forall k :: k in a ==> k in b && b[k].user == a[k].user && b[k].name == a[k].name
                               && b[k].learned == a[k].learned
                               && (b[k].version == a[k].version || (a[k].learned && b[k].version == a[k].version + 1))
                               && (!a[k].learned ==> b[k] == a[k]))
    && (forall k :: k in b && k !in a ==> b[k].learned && b[k].version == 1)
  }

  // ---- Steps that promote nothing ----

  /** At most the `archived` column of learned skills has changed. */
  ghost predicate Unpromoted(db: Db, after: Db) {
    && after.revisions == db.revisions
    && after.skills.Keys == db.skills.Keys
    && (forall k :: k in db.skills ==>
          || after.skills[k] == db.skills[k]
          || (db.skills[k].learned && after.skills[k] == db.skills[k].(archived := after.skills[k].archived)))
  }

  lemma UnpromotedKeeps(db: Db, after: Db)
    requires Versioned(db) && Unpromoted(db, after) && CandidatesExtend(db.candidates, after.candidates)
    ensures Versioned(after) && SkillStep(db.skills, after.skills)
  {
    forall r | r in after.revisions
      ensures r.0 in after.skills
      ensures after.skills[r.0].learned ==> Proposes(after, after.revisions[r], r.0, r.1)
    {
      if after.skills[r.0].learned {
        assert Proposes(db, db.revisions[r], r.0, r.1);
      }
    }
    forall k | k in after.skills && after.skills[k].learned
      ensures RowsMatch(after, k)
    {
      assert RowsMatch(db, k);
    }
  }

  lemma ChosenPromotesNothing(db: Db, e: Origin, r: Reads, now: int)
    requires forall k :: k in db.skills && !db.skills[k].learned ==> db.skills[k].source == None
    requires e.signal.Some? && ReadsOk(db, e, r, now)
    ensures Unpromoted(db, Chosen(db, e, r, now))
  {
  }

  lemma ProcessPromotesNothing(db: Db, id: Id, e: Origin, r: Reads, now: int)
    requires forall k :: k in db.skills && !db.skills[k].learned ==> db.skills[k].source == None
    requires e.signal.Some? && r.allowed && !r.suppressed ==> ReadsOk(db, e, r, now)
    ensures Unpromoted(db, Process(db, id, e, r, now).db)
  {
    if e.signal.Some? && r.allowed && !r.suppressed {
      ChosenPromotesNothing(db, e, r, now);
    }
  }

  // ---- Promotion ----

  /** The skill row that a promotion writes continues the skill, or starts a new one. */
  lemma PromotedSkillFits(db: Db, c: Id, p: Proposal, row: Id)
    requires Versioned(db)
    requires c in db.candidates && p == db.candidates[c].proposal && RowOk(db, c, p, row)
    requires PromotedSkill(db, c, p, row).Some?
    ensures var (k, skill) := PromotedSkill(db, c, p, row).value;
            && skill.learned && skill.source == Some(c) && skill.user == p.user
            && (k in db.skills ==>
                  && db.skills[k].learned && db.skills[k].user == skill.user && db.skills[k].name == skill.name
                  && (skill == db.skills[k] || skill.version == db.skills[k].version + 1))
            && (k !in db.skills ==> skill.version == 1 && !NameTaken(db.skills, skill.user, skill.name))
            && (k in db.skills && skill == db.skills[k] ==> db.revisions[(k, skill.version)] == c)
            && (k !in db.skills || skill != db.skills[k] ==>
                  match p.payload
                  case OtherPayload => false
                  case SkillPayload(name, None) => skill.version == 1 && name == skill.name
                  case SkillPayload(name, Some(r)) => r == Revises(k, skill.version) && skill.version >= 2)
  {
    var (k, skill) := PromotedSkill(db, c, p, row).value;
    if k in db.skills && db.skills[k].learned {
      assert RowsMatch(db, k);
    }
  }

  lemma SkillAfter(skills: map<Id, Skill>, k: Id, skill: Skill)
    requires NamesUnique(skills) && skill.learned
    requires k in skills ==>
               && skills[k].learned && skills[k].user == skill.user && skills[k].name == skill.name
               && skill.version == skills[k].version + 1
    requires k !in skills ==> skill.version == 1 && !NameTaken(skills, skill.user, skill.name)
    ensures NamesUnique(skills[k := skill]) && SkillStep(skills, skills[k := skill])
  {
  }

  lemma NewRevision(db: Db, after: Db, c: Id, k: Id, skill: Skill)
    requires Versioned(db) && CandidatesExtend(db.candidates, after.candidates)
    requires skill.learned && skill.source == Some(c)
    requires k in db.skills ==>
               && db.skills[k].learned && db.skills[k].user == skill.user && db.skills[k].name == skill.name
               && skill.version == db.skills[k].version + 1
    requires k !in db.skills ==> skill.version == 1 && !NameTaken(db.skills, skill.user, skill.name)
    requires after.skills == db.skills[k := skill] && Proposes(after, c, k, skill.version)
    requires after.revisions == db.revisions[(k, skill.version) := c]
    ensures (k, skill.version) !in db.revisions
    ensures Versioned(after) && SkillStep(db.skills, after.skills)
  {
    assert k in db.skills ==> RowsMatch(db, k);
    SkillAfter(db.skills, k, skill);
    forall r | r in after.revisions && after.skills[r.0].learned
      ensures Proposes(after, after.revisions[r], r.0, r.1)
    {
      if r != (k, skill.version) {
        assert Proposes(db, db.revisions[r], r.0, r.1);
      }
    }
    forall j | j in after.skills && after.skills[j].learned
      ensures RowsMatch(after, j)
    {
      RowsAfter(db, after, c, k, skill, j);
    }
  }

  lemma RowsAfter(db: Db, after: Db, c: Id, k: Id, skill: Skill, j: Id)
    requires j in db.skills && db.skills[j].learned ==> RowsMatch(db, j)
    requires forall r :: r in db.revisions ==> r.0 in db.skills
    requires skill.source == Some(c)
    requires after.skills == db.skills[k := skill] && after.revisions == db.revisions[(k, skill.version) := c]
    requires k in db.skills ==> db.skills[k].learned && skill.version == db.skills[k].version + 1
    requires k !in db.skills ==> skill.version == 1
    requires j in after.skills && after.skills[j].learned
    ensures RowsMatch(after, j)
  {
    forall v
      ensures (j, v) in after.revisions <==> 1 <= v <= after.skills[j].version
    {
      assert (j, v) in after.revisions <==> (j, v) in db.revisions || (j == k && v == skill.version);
    }
  }

  lemma PromotionKeeps(db: Db, c: Id, p: Proposal, row: Id, attempt: nat, now: int)
    requires Versioned(db)
    requires c in db.candidates && p == db.candidates[c].proposal && RowOk(db, c, p, row)
    requires db.candidates[c].evidenceCount >= MIN_EVIDENCE && PromotedSkill(db, c, p, row).Some?
    ensures var after := Promoted(db, c, attempt, PromotedSkill(db, c, p, row).value, now);
            Versioned(after) && SkillStep(db.skills, after.skills)
  {
    var (k, skill) := PromotedSkill(db, c, p, row).value;
    var after := Promoted(db, c, attempt, (k, skill), now);
    PromotedSkillFits(db, c, p, row);
    if k in db.skills && skill == db.skills[k] {
      assert RowsMatch(db, k);
      UnpromotedKeeps(db, after);
    } else {
      assert k in db.skills ==> RowsMatch(db, k);
      NewRevision(db, after, c, k, skill);
    }
  }

  // ---- Every step and every run ----

  ghost predicate All(s: System) {
    Inv(s) && Versioned(s.db)
  }

  lemma PromoteKeeps(s: System, w: Id, row: Id)
    requires All(s)
    ensures Versioned(Promote(s, w, row).db) && SkillStep(s.db.skills, Promote(s, w, row).db.skills)
  {
    if CanPromote(s, w, row) {
      var p := s.promoters[w];
      assert PromoterFits(s.db.candidates, p);
      if PromotedSkill(s.db, p.candidate, p.snapshot.proposal, row).Some? {
        PromotionKeeps(s.db, p.candidate, p.snapshot.proposal, row, p.snapshot.attempts, s.now);
      }
    }
  }

  lemma ProcessEventPromotesNothing(s: System, w: Id, r: Reads)
    requires forall k :: k in s.db.skills && !s.db.skills[k].learned ==> s.db.skills[k].source == None
    ensures Unpromoted(s.db, ProcessEvent(s, w, r).db)
  {
    if CanProcess(s, w, r) {
      ProcessPromotesNothing(s.db, s.processors[w].event, s.processors[w].snapshot.origin, r, s.now);
    }
  }

  lemma OtherStepsPromoteNothing(s: System, step: Step)
    requires !step.ToPromote? && !step.ToProcessEvent?
    ensures Apply(s, step).db.skills == s.db.skills && Apply(s, step).db.revisions == s.db.revisions
  {
  }

  lemma StepKeepsAll(s: System, step: Step)
    requires All(s)
    ensures All(Apply(s, step)) && SkillStep(s.db.skills, Apply(s, step).db.skills)
  {
    StepKeeps(s, step);
    match step
    case ToPromote(w, row) => PromoteKeeps(s, w, row);
    case ToProcessEvent(w, r) =>
      ProcessEventPromotesNothing(s, w, r);
      UnpromotedKeeps(s.db, Apply(s, step).db);
    case _ =>
      OtherStepsPromoteNothing(s, step);
      UnpromotedKeeps(s.db, Apply(s, step).db);
  }

  lemma {:induction false} RunKeepsAll(s: System, steps: seq<Step>)
    requires All(s)
    ensures All(Run(s, steps))
    decreases |steps|
  {
    if steps != [] {
      StepKeepsAll(s, steps[0]);
      RunKeepsAll(Apply(s, steps[0]), steps[1..]);
    }
  }

  lemma Reached(s: System, steps: seq<Step>)
    requires Init(s)
    ensures All(Run(s, steps))
  {
    RunKeepsAll(s, steps);
  }

  /** A learned skill's revision rows are exactly its versions 1..version, and its current source is
      the source of the last of them. */
  lemma RevisionsAreTheVersions(s: System, steps: seq<Step>, k: Id, v: int)
    requires Init(s) && k in Run(s, steps).db.skills && Run(s, steps).db.skills[k].learned
    ensures var db := Run(s, steps).db;
            && ((k, v) in db.revisions <==> 1 <= v <= db.skills[k].version)
            && db.skills[k].version >= 1 && (k, db.skills[k].version) in db.revisions
            && db.skills[k].source == Some(db.revisions[(k, db.skills[k].version)])
  {
    Reached(s, steps);
    assert RowsMatch(Run(s, steps).db, k);
  }

  /** One candidate, one revision: it creates one skill at most, or changes one skill once at most. */
  lemma OneRevisionPerCandidate(s: System, steps: seq<Step>, a: (Id, int), b: (Id, int))
    requires Init(s)
    requires var db := Run(s, steps).db;
             && a in db.revisions && b in db.revisions && a.0 in db.skills && b.0 in db.skills
             && db.skills[a.0].learned && db.skills[b.0].learned && db.revisions[a] == db.revisions[b]
    ensures a == b
  {
    Reached(s, steps);
    var db := Run(s, steps).db;
    assert Proposes(db, db.revisions[a], a.0, a.1);
    assert Proposes(db, db.revisions[b], b.0, b.1);
  }

  /** After any run, any further step moves each skill by one version or none. */
  lemma VersionsGrowByOne(s: System, steps: seq<Step>, step: Step)
    requires Init(s)
    ensures SkillStep(Run(s, steps).db.skills, Run(s, steps + [step]).db.skills)
  {
    Reached(s, steps);
    RunSplit(s, steps, [step]);
    assert [step][1..] == [];
    StepKeepsAll(Run(s, steps), step);
  }

  /** Behind every version of every learned skill stand three different events at least. */
  lemma VersionsAreBacked(s: System, steps: seq<Step>, k: Id, v: int)
    requires Init(s) && k in Run(s, steps).db.skills && Run(s, steps).db.skills[k].learned
    requires 1 <= v <= Run(s, steps).db.skills[k].version
    ensures var db := Run(s, steps).db;
            && (k, v) in db.revisions
            && db.revisions[(k, v)] in db.candidates
            && db.candidates[db.revisions[(k, v)]].proposal.user == db.skills[k].user
            && |EventsBehind(db, db.revisions[(k, v)])| >= 3
  {
    Reached(s, steps);
    var db := Run(s, steps).db;
    assert RowsMatch(db, k);
    assert Proposes(db, db.revisions[(k, v)], k, v);
    CountsDistinctEvents(s, steps, db.revisions[(k, v)]);
  }
}

/** What each step of an activity worker leaves in the tables, column by column, in any state that a run can reach. */
module EventEffects {
  import opened Option
  import opened Backoff
  import opened LearningTables
  import opened LearningSystem
  import opened LearningReach
  import EvidenceCounts
  import EventClaims
  import SkillVersions

  // ---- Claims and failures ----

  /** Tried less than eight times, and either due or held by a claim that has run out. */
  predicate MayBeClaimed(t: System, id: Id) {
    && id in t.db.events && t.db.events[id].attempts < 8
    && var e := t.db.events[id];
       if e.status == EventProcessing then e.claimExpiresAt.Some? && e.claimExpiresAt.value < t.now
       else e.status != EventProcessed && (e.nextAttemptAt.None? || e.nextAttemptAt.value <= t.now)
  }

  /** Five minutes for the worker that asked, exactly when the event may be claimed. */
  lemma ClaimLeaves(t: System, w: Id, id: Id)
    requires w !in t.processors
    ensures var after := Apply(t, ToClaimEvent(w, id));
            if MayBeClaimed(t, id) then
              var row := t.db.events[id].(status := EventProcessing, claimExpiresAt := Some(t.now + 300_000),
                                          attempts := t.db.events[id].attempts + 1);
              && after.db == t.db.(events := t.db.events[id := row])
              && after.processors == t.processors[w := Processor(id, row, t.now + 300_000, false)]
            else after == t
  {
  }

  /** The catch block reopens the event, min(3600, 30 * 2^(n-1)) seconds after the worker's attempt n. */
  lemma FailLeaves(t: System, w: Id)
    requires Reachable(t) && w in t.processors
    ensures var after, id, n := Apply(t, ToFailEvent(w)), t.processors[w].event, t.processors[w].snapshot.attempts;
            && id in t.db.events && after.processors == t.processors - {w}
            && after.db == t.db.(events := t.db.events[id := t.db.events[id].(
                 status := EventFailed, claimExpiresAt := None,
                 nextAttemptAt := Some(t.now + Min(3_600, 30 * Pow2(if n == 0 then 0 else n - 1)) * 1_000))])
  {
    ProcessorRow(t, w);
  }

  // ---- The processing transaction ----

  predicate Commits(t: System, w: Id, r: Reads) {
    && CanProcess(t, w, r)
    && UniqueStatus(Process(t.db, t.processors[w].event, t.processors[w].snapshot.origin, r, t.now).db.candidates)
  }

  /** The event has a signal that the user's settings and the suppression list let through. */
  predicate Learns(t: System, w: Id, r: Reads)
    requires w in t.processors
  {
    t.processors[w].snapshot.origin.signal.Some? && r.allowed && !r.suppressed
  }

  function After(t: System, w: Id, r: Reads): Db {
    Apply(t, ToProcessEvent(w, r)).db
  }

  /** The event, which the worker need not hold any more, and the tables that the transaction leaves alone. */
  lemma ProcessLeaves(t: System, w: Id, r: Reads)
    requires Reachable(t) && Commits(t, w, r)
    ensures var after, id := After(t, w, r), t.processors[w].event;
            && id in t.db.events
            && after.events == (if t.db.events[id].status == EventProcessing
                                then t.db.events[id := t.db.events[id].(status := EventProcessed, claimExpiresAt := None,
                                                                        nextAttemptAt := None)]
                                else t.db.events)
            && after.revisions == t.db.revisions && after.attempts == t.db.attempts
            && (!Learns(t, w, r) ==>
                  && after.candidates == t.db.candidates && after.evidence == t.db.evidence && after.skills == t.db.skills
                  && after.observations
                     == if t.processors[w].snapshot.origin.signal.Some? && r.allowed
                        then t.db.observations + {Observation(id, t.processors[w].snapshot.origin.signal.value.observationType)}
                        else t.db.observations)
  {
    ProcessorRow(t, w);
    EventClaims.ProcessMarksEvent(t.db, t.processors[w].event, t.processors[w].snapshot.origin, r, t.now);
  }

  /** A transaction that does not commit changes nothing. */
  lemma ThrowLeaves(t: System, w: Id, r: Reads)
    requires !Commits(t, w, r)
    ensures Apply(t, ToProcessEvent(w, r)) == t
  {
  }

  /** The tables once there is a candidate to support, and what supporting it adds. */
  lemma AfterIs(t: System, w: Id, r: Reads)
    requires Commits(t, w, r) && Learns(t, w, r)
    ensures var after, c, e := After(t, w, r), ChosenId(r), t.processors[w].snapshot.origin;
            var mid, o := Chosen(t.db, e, r, t.now), Observation(t.processors[w].event, e.signal.value.observationType);
            && after.observations == t.db.observations + {o} && after.evidence == t.db.evidence + {(c, o)}
            && after.skills == mid.skills && c in mid.candidates
            && after.candidates == mid.candidates[c := Touched(mid.candidates[c], |EvidenceOf(after.evidence, c)|,
                                                               e.signal.value.threshold, t.now)]
  {
    SupportedIs(t.db, t.processors[w].event, t.processors[w].snapshot.origin, r, t.now);
    CommittedIs(t, w, r);
  }

  lemma CommittedIs(t: System, w: Id, r: Reads)
    requires Commits(t, w, r)
    ensures After(t, w, r) == Process(t.db, t.processors[w].event, t.processors[w].snapshot.origin, r, t.now).db
  {
  }

  lemma SupportedIs(db: Db, id: Id, e: Origin, r: Reads, now: int)
    requires e.signal.Some? && r.allowed && !r.suppressed && ReadsOk(db, e, r, now)
    ensures var after, c := Process(db, id, e, r, now).db, ChosenId(r);
            var mid, o := Chosen(db, e, r, now), Observation(id, e.signal.value.observationType);
            && after.observations == db.observations + {o} && after.evidence == db.evidence + {(c, o)}
            && after.skills == mid.skills && c in mid.candidates
            && after.candidates == mid.candidates[c := Touched(mid.candidates[c], |EvidenceOf(after.evidence, c)|,
                                                               e.signal.value.threshold, now)]
  {
    var mid, c, o := Chosen(db, e, r, now), ChosenId(r), Observation(id, e.signal.value.observationType);
    ChosenTables(db, e, r, now);
    SupportTables(Observed(mid, o), c, o, e.signal.value.threshold, now);
    MarkTables(Support(Observed(mid, o), c, o, e.signal.value.threshold, now), id);
  }

  lemma ChosenTables(db: Db, e: Origin, r: Reads, now: int)
    requires e.signal.Some? && ReadsOk(db, e, r, now)
    ensures var mid := Chosen(db, e, r, now);
            ChosenId(r) in mid.candidates && mid.observations == db.observations && mid.evidence == db.evidence
  {
  }

  lemma SupportTables(db: Db, c: Id, o: Observation, threshold: int, now: int)
    requires c in db.candidates
    ensures var after := Support(db, c, o, threshold, now);
            && after.observations == db.observations && after.skills == db.skills && after.evidence == db.evidence + {(c, o)}
            && after.candidates == db.candidates[c := Touched(db.candidates[c], |EvidenceOf(after.evidence, c)|, threshold, now)]
  {
  }

  lemma MarkTables(db: Db, id: Id)
    ensures MarkProcessed(db, id) == db.(events := MarkProcessed(db, id).events)
  {
  }

  lemma ChosenLeaves(db: Db, e: Origin, r: Reads, now: int)
    requires e.signal.Some? && ReadsOk(db, e, r, now)
    ensures var mid, c := Chosen(db, e, r, now), ChosenId(r);
            && mid.candidates.Keys == db.candidates.Keys + {c}
            && (forall d :: d in db.candidates && d != c && (r.corrected.Some? ==> d != r.corrected.value.candidate) ==>
                  mid.candidates[d] == db.candidates[d])
            && (r.existing.Some? ==> c in db.candidates && mid.candidates[c] == db.candidates[c])
            && (r.existing.None? ==> c !in db.candidates)
            && (r.corrected.Some? ==>
                  var d := r.corrected.value.candidate;
                  d in db.candidates && d != c && mid.candidates[d] == db.candidates[d].(status := Superseded, updatedAt := now))
  {
  }

  /** A corrected skill is archived, and its candidate superseded. */
  lemma CorrectionLeaves(t: System, w: Id, r: Reads)
    requires Commits(t, w, r) && Learns(t, w, r)
    ensures var after := After(t, w, r);
            match r.corrected
            case None => after.skills == t.db.skills
            case Some(m) =>
              && m.skill in t.db.skills && after.skills == t.db.skills[m.skill := t.db.skills[m.skill].(archived := true)]
              && m.candidate in t.db.candidates && m.candidate in after.candidates && m.candidate != ChosenId(r)
              && after.candidates[m.candidate] == t.db.candidates[m.candidate].(status := Superseded, updatedAt := t.now)
  {
    AfterIs(t, w, r);
    ChosenLeaves(t.db, t.processors[w].snapshot.origin, r, t.now);
  }

  /** One observation, as evidence for one candidate; other candidates stay as they are. */
  lemma EvidenceLeaves(t: System, w: Id, r: Reads)
    requires Commits(t, w, r) && Learns(t, w, r)
    ensures var after, c := After(t, w, r), ChosenId(r);
            var o := Observation(t.processors[w].event, t.processors[w].snapshot.origin.signal.value.observationType);
            && after.observations == t.db.observations + {o} && after.evidence == t.db.evidence + {(c, o)}
            && after.candidates.Keys == t.db.candidates.Keys + {c}
            && (forall d :: d in t.db.candidates && d != c && (r.corrected.Some? ==> d != r.corrected.value.candidate) ==>
                  after.candidates[d] == t.db.candidates[d])
  {
    AfterIs(t, w, r);
    ChosenLeaves(t.db, t.processors[w].snapshot.origin, r, t.now);
  }

  /** An open candidate is counted again, and waits for its promotion once it has collected enough. */
  lemma OpenCandidateLeaves(t: System, w: Id, r: Reads)
    requires Commits(t, w, r) && Learns(t, w, r) && r.existing.Some?
    ensures var after, c, s := After(t, w, r), r.existing.value, t.processors[w].snapshot.origin.signal.value;
            && c in t.db.candidates && c in after.candidates
            && var was, total := t.db.candidates[c], |EvidenceOf(after.evidence, c)|;
               && was.status in {Collecting, Pending, Confirmed} && was.proposal.key == s.key
               && was.proposal.user == t.processors[w].snapshot.origin.user
               && after.candidates[c] == was.(
                    evidenceCount := total, updatedAt := t.now,
                    status := if was.status == Collecting && total >= s.threshold then Pending else was.status)
  {
    AfterIs(t, w, r);
    ChosenLeaves(t.db, t.processors[w].snapshot.origin, r, t.now);
  }

  /** What the candidate of a skill signal proposes: the next version of the skill under correction, or a new skill. */
  predicate ProposesSkill(t: System, r: Reads, key: string, p: Payload) {
    match r.corrected
    case Some(m) =>
      m.skill in t.db.skills && p == SkillPayload(t.db.skills[m.skill].name, Some(Revises(m.skill, t.db.skills[m.skill].version + 1)))
    case None => p == SkillPayload("learned-" + (if |key| > 12 then key[..12] else key), None)
  }

  /** Without an open candidate there is a new one, of the event's user, scope and key. */
  lemma NewCandidateLeaves(t: System, w: Id, r: Reads)
    requires Reachable(t) && Commits(t, w, r) && Learns(t, w, r) && r.existing.None?
    ensures var after, c, e := After(t, w, r), r.newId, t.processors[w].snapshot.origin;
            && c !in t.db.candidates && c in after.candidates
            && var row := after.candidates[c];
               && row.proposal.user == e.user && row.proposal.scope == e.scope && row.proposal.key == e.signal.value.key
               && row.proposal.kind == e.signal.value.kind
               && (if row.proposal.kind == SkillKind then ProposesSkill(t, r, e.signal.value.key, row.proposal.payload)
                   else row.proposal.payload == OtherPayload)
               && row.status == (if e.signal.value.threshold <= 1 then Pending else Collecting)
               && row.evidenceCount == 1 && row.attempts == 0 && row.claimExpiresAt == None && row.nextAttemptAt == None
               && row.updatedAt == t.now
  {
    ReachableFits(t);
    AfterIs(t, w, r);
    var e := t.processors[w].snapshot.origin;
    ChosenLeaves(t.db, e, r, t.now);
    OneEvidence(t.db, r.newId, Observation(t.processors[w].event, e.signal.value.observationType));
    NewRowIs(t, r, e);
  }

  lemma NewRowIs(t: System, r: Reads, e: Origin)
    requires e.signal.Some? && ReadsOk(t.db, e, r, t.now) && r.existing.None?
    ensures var row := Chosen(t.db, e, r, t.now).candidates[r.newId];
            && row.proposal.user == e.user && row.proposal.scope == e.scope && row.proposal.key == e.signal.value.key
            && row.proposal.kind == e.signal.value.kind
            && (if row.proposal.kind == SkillKind then ProposesSkill(t, r, e.signal.value.key, row.proposal.payload)
                else row.proposal.payload == OtherPayload)
            && row.status == (if e.signal.value.threshold == 1 then Pending else Collecting)
            && row.attempts == 0 && row.claimExpiresAt == None && row.nextAttemptAt == None
  {
  }

  lemma OneEvidence(db: Db, c: Id, o: Observation)
    requires EvidenceCounts.Counted(db) && c !in db.candidates
    ensures EvidenceOf(db.evidence + {(c, o)}, c) == {o} && |EvidenceOf(db.evidence + {(c, o)}, c)| == 1
  {
    EvidenceCounts.EvidenceGrows(db.evidence, c, o);
    assert forall x :: x in EvidenceOf(db.evidence, c) ==> EvidenceCounts.EvidenceFits(db, (c, x));
    assert EvidenceOf(db.evidence, c) == {};
  }

  /** The promotion that the transaction asks for: of the candidate it supported, exactly when that has a skill to
      propose and now waits. */
  lemma AsksForPromotion(t: System, w: Id, r: Reads, c: Id)
    requires Commits(t, w, r)
    ensures Process(t.db, t.processors[w].event, t.processors[w].snapshot.origin, r, t.now).promotion == Some(c) <==>
              && Learns(t, w, r) && t.processors[w].snapshot.origin.signal.value.kind == SkillKind
              && c == (match r.existing case Some(d) => d case None => r.newId)
              && c in After(t, w, r).candidates && After(t, w, r).candidates[c].status == Pending
  {
    CommittedIs(t, w, r);
  }

  // ---- What the transaction finds ----

  /** A learned skill in use, and the confirmed candidate of the event's user and scope that it comes from. */
  predicate MayCorrect(t: System, e: Origin, c: Id, k: Id) {
    && e.isCorrection && c in t.db.candidates && k in t.db.skills
    && t.db.candidates[c].status == Confirmed && t.db.candidates[c].proposal.kind == SkillKind
    && t.db.candidates[c].proposal.user == e.user && t.db.candidates[c].proposal.scope == e.scope
    && t.db.skills[k].source == Some(c) && !t.db.skills[k].archived
  }

  /** An open candidate of the event's user and key other than the one that is being superseded. */
  predicate MaySupport(t: System, e: Origin, m: Option<Corrected>, d: Id)
    requires e.signal.Some?
  {
    && d in t.db.candidates && (m.Some? ==> d != m.value.candidate)
    && t.db.candidates[d].proposal.user == e.user && t.db.candidates[d].proposal.key == e.signal.value.key
    && (t.db.candidates[d].status == Collecting || t.db.candidates[d].status == Pending || t.db.candidates[d].status == Confirmed)
  }

  /** The worker can go on with exactly these rows: a skill to correct or none, and the open candidate or a new one. */
  lemma FindsExactly(t: System, w: Id, r: Reads)
    requires w in t.processors && !t.processors[w].committed && Learns(t, w, r)
    ensures var e := t.processors[w].snapshot.origin;
            CanProcess(t, w, r) <==>
              && (r.corrected.Some? ==> MayCorrect(t, e, r.corrected.value.candidate, r.corrected.value.skill))
              && (r.existing.Some? ==> MaySupport(t, e, r.corrected, r.existing.value))
              && (r.existing.None? ==> forall d :: d in t.db.candidates ==> !MaySupport(t, e, r.corrected, d))
              && r.newId !in t.db.candidates
  {
    var e := t.processors[w].snapshot.origin;
    if r.corrected.Some? && !MayCorrect(t, e, r.corrected.value.candidate, r.corrected.value.skill) {
    } else {
      var open := Archive(t.db, r.corrected, t.now).candidates;
      assert open.Keys == t.db.candidates.Keys;
      forall d | d in open
        ensures Open(open[d], e, e.signal.value.key) <==> MaySupport(t, e, r.corrected, d)
      {
      }
    }
  }

  // ---- When the transaction commits ----

  /** The status that the supported candidate gets. */
  function StatusGot(t: System, w: Id, r: Reads): CandidateStatus
    requires CanProcess(t, w, r) && Learns(t, w, r)
  {
    var s, c := t.processors[w].snapshot.origin.signal.value, ChosenId(r);
    if r.existing.None? then if s.threshold <= 1 then Pending else Collecting
    else if t.db.candidates[c].status == Collecting
            && |EvidenceOf(t.db.evidence + {(c, Observation(t.processors[w].event, s.observationType))}, c)| >= s.threshold then Pending
    else t.db.candidates[c].status
  }

  /** Another candidate of the user and key has the status. */
  predicate Taken(candidates: map<Id, Candidate>, d: Id, user: Id, key: string, status: CandidateStatus) {
    d in candidates && candidates[d].proposal.user == user && candidates[d].proposal.key == key && candidates[d].status == status
  }

  /** No other candidate is in the way of the supported one, nor of the superseded one. */
  ghost predicate InNobodysWay(t: System, w: Id, r: Reads)
    requires CanProcess(t, w, r) && Learns(t, w, r)
  {
    var e := t.processors[w].snapshot.origin;
    && (forall d :: d != ChosenId(r) && (r.corrected.Some? ==> d != r.corrected.value.candidate) ==>
          !Taken(t.db.candidates, d, e.user, e.signal.value.key, StatusGot(t, w, r)))
    && (r.corrected.Some? ==>
          var m := r.corrected.value.candidate;
          forall d :: d != m ==> !Taken(t.db.candidates, d, t.db.candidates[m].proposal.user, t.db.candidates[m].proposal.key, Superseded))
  }

  lemma SupportedRowIs(t: System, w: Id, r: Reads)
    requires Reachable(t) && CanProcess(t, w, r) && Learns(t, w, r)
    ensures var e, c := t.processors[w].snapshot.origin, ChosenId(r);
            var after := Process(t.db, t.processors[w].event, e, r, t.now).db.candidates;
            var mid := Chosen(t.db, e, r, t.now).candidates;
            && c in after && after == mid[c := after[c]]
            && after[c].proposal.user == e.user && after[c].proposal.key == e.signal.value.key
            && after[c].status == StatusGot(t, w, r)
  {
    ReachableFits(t);
    var e, c := t.processors[w].snapshot.origin, ChosenId(r);
    SupportedIs(t.db, t.processors[w].event, e, r, t.now);
    ChosenLeaves(t.db, e, r, t.now);
    if r.existing.None? {
      OneEvidence(t.db, c, Observation(t.processors[w].event, e.signal.value.observationType));
      NewRowIs(t, r, e);
    }
  }

  /** The transaction goes through exactly when the unique key lets it. */
  lemma CommitsExactlyWhen(t: System, w: Id, r: Reads)
    requires Reachable(t) && CanProcess(t, w, r) && Learns(t, w, r)
    ensures Commits(t, w, r) <==> InNobodysWay(t, w, r)
  {
    ReachableFits(t);
    SupportedRowIs(t, w, r);
    var e := t.processors[w].snapshot.origin;
    KeyLetsSupport(t, w, r, Process(t.db, t.processors[w].event, e, r, t.now).db.candidates);
  }

  lemma KeyLetsSupport(t: System, w: Id, r: Reads, after: map<Id, Candidate>)
    requires UniqueStatus(t.db.candidates) && CanProcess(t, w, r) && Learns(t, w, r) && ChosenId(r) in after
    requires var e, c := t.processors[w].snapshot.origin, ChosenId(r);
             && after == Chosen(t.db, e, r, t.now).candidates[c := after[c]] && after[c].status == StatusGot(t, w, r)
             && after[c].proposal.user == e.user && after[c].proposal.key == e.signal.value.key
    ensures UniqueStatus(after) <==> InNobodysWay(t, w, r)
  {
    ChosenLeaves(t.db, t.processors[w].snapshot.origin, r, t.now);
    OpenIsNotSuperseded(t, w, r);
    KeyLets(t.db.candidates, after, r.corrected, ChosenId(r), t.now);
  }

  lemma OpenIsNotSuperseded(t: System, w: Id, r: Reads)
    requires CanProcess(t, w, r) && Learns(t, w, r)
    ensures StatusGot(t, w, r) != Superseded
    ensures r.existing.Some? ==> r.existing.value in t.db.candidates && t.db.candidates[r.existing.value].status != Superseded
    ensures r.existing.None? ==> r.newId !in t.db.candidates
  {
  }

  /** From distinct rows: one is superseded, and one, which is not that, is put in. */
  lemma KeyLets(before: map<Id, Candidate>, after: map<Id, Candidate>, m: Option<Corrected>, c: Id, now: int)
    requires UniqueStatus(before) && c in after && after.Keys == before.Keys + {c} && after[c].status != Superseded
    requires m.Some? ==> m.value.candidate in before && m.value.candidate != c
    requires m.Some? ==> after[m.value.candidate] == before[m.value.candidate].(status := Superseded, updatedAt := now)
    requires c in before ==> before[c].status != Superseded
    requires forall d :: d in before && d != c && (m.Some? ==> d != m.value.candidate) ==> after[d] == before[d]
    ensures UniqueStatus(after) <==>
              && (forall d :: d != c && (m.Some? ==> d != m.value.candidate) ==>
                    !Taken(before, d, after[c].proposal.user, after[c].proposal.key, after[c].status))
              && (m.Some? ==>
                    var x := m.value.candidate;
                    forall d :: d != x ==> !Taken(before, d, before[x].proposal.user, before[x].proposal.key, Superseded))
  {
    var base := if m.Some? then before[m.value.candidate := after[m.value.candidate]] else before;
    assert after == base[c := after[c]];
    if m.Some? {
      PutIsUniqueExactlyWhen(before, m.value.candidate, after[m.value.candidate]);
    }
    if UniqueStatus(base) {
      forall d | m.Some? && d != m.value.candidate
        ensures !Taken(before, d, before[m.value.candidate].proposal.user, before[m.value.candidate].proposal.key, Superseded)
      {
        assert !Rival(before, m.value.candidate, after[m.value.candidate], d);
      }
      PutIsUniqueExactlyWhen(base, c, after[c]);
      RivalIsTaken(before, base, m, c, after[c]);
    } else {
      var d :| Rival(before, m.value.candidate, after[m.value.candidate], d);
      assert Clash(after, m.value.candidate, d);
      assert Taken(before, d, before[m.value.candidate].proposal.user, before[m.value.candidate].proposal.key, Superseded);
    }
  }

  lemma RivalIsTaken(before: map<Id, Candidate>, base: map<Id, Candidate>, m: Option<Corrected>, c: Id, row: Candidate)
    requires row.status != Superseded && (m.Some? ==> m.value.candidate in base && base[m.value.candidate].status == Superseded)
    requires base.Keys == before.Keys && forall d :: d in before && (m.Some? ==> d != m.value.candidate) ==> base[d] == before[d]
    ensures (forall d :: !Rival(base, c, row, d))
       <==> (forall d :: d != c && (m.Some? ==> d != m.value.candidate) ==>
               !Taken(before, d, row.proposal.user, row.proposal.key, row.status))
  {
    forall d
      ensures Rival(base, c, row, d) <==>
                d != c && (m.Some? ==> d != m.value.candidate) && Taken(before, d, row.proposal.user, row.proposal.key, row.status)
    {
    }
  }

  /** The worker is about to process a correction of the skill whose source is candidate `c`. */
  predicate Corrects(t: System, w: Id, r: Reads, c: Id) {
    CanProcess(t, w, r) && Learns(t, w, r) && r.corrected.Some? && r.corrected.value.candidate == c
  }

  /** A skill whose candidate shares user and key with one that was superseded before cannot be corrected: the
      transaction of every such correction throws. */
  lemma SecondCorrectionThrows(t: System, w: Id, r: Reads, d: Id)
    requires Reachable(t) && r.corrected.Some? && Corrects(t, w, r, r.corrected.value.candidate)
    requires d != r.corrected.value.candidate
    requires var m := t.db.candidates[r.corrected.value.candidate].proposal; Taken(t.db.candidates, d, m.user, m.key, Superseded)
    ensures Apply(t, ToProcessEvent(w, r)) == t
  {
    CommitsExactlyWhen(t, w, r);
    ThrowLeaves(t, w, r);
  }
}

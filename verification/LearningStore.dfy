/** The statements and transactions of the two workers, as updates in place of one store of rows. */
module LearningStore {
  import opened Option
  import opened Backoff
  import opened LearningTables

  class Store {
    var events: map<Id, Event>
    var observations: set<Observation>
    var candidates: map<Id, Candidate>
    var evidence: set<(Id, Observation)>
    var skills: map<Id, Skill>
    var revisions: map<(Id, int), Id>
    var attempts: map<(Id, nat), AttemptStatus>

    function Contents(): Db
      reads this
    {
      Db(events, observations, candidates, evidence, skills, revisions, attempts)
    }

    // ---- activity-worker.ts ----

    /** `UPDATE .. WHERE .. RETURNING`: the new row, or nothing where the guard fails. */
    method ClaimEvent(id: Id, now: int) returns (claimed: Option<Event>)
      modifies this
      ensures claimed.Some? <==> id in old(events) && Claimable(old(events)[id], now)
      ensures claimed.Some? ==> claimed.value == ClaimedEvent(old(events)[id], now)
      ensures Contents() == if claimed.None? then old(Contents())
                            else old(Contents()).(events := old(events)[id := claimed.value])
    {
      claimed := None;
      if id in events && events[id].attempts < MAX_ATTEMPTS {
        var e := events[id];
        var due := e.nextAttemptAt.None? || e.nextAttemptAt.value <= now;
        if (e.status == EventPending && due) || (e.status == EventFailed && due)
           || (e.status == EventProcessing && e.claimExpiresAt.Some? && e.claimExpiresAt.value < now)
        {
          e := e.(status := EventProcessing, claimExpiresAt := Some(now + CLAIM_MS));
          e := e.(attempts := e.attempts + 1);
          events := events[id := e];
          claimed := Some(e);
        }
      }
    }

    method MarkEventProcessed(id: Id)
      modifies this`events
      ensures Contents() == MarkProcessed(old(Contents()), id)
    {
      if id in events && events[id].status == EventProcessing {
        var e := events[id];
        events := events[id := e.(status := EventProcessed, claimExpiresAt := None, nextAttemptAt := None)];
      }
    }

    /** The second half of the transaction: archive, choose, support. */
    method SupportCandidate(e: Origin, r: Reads, o: Observation, now: int) returns (promotion: Option<Id>)
      requires e.signal.Some? && ReadsOk(Contents(), e, r, now)
      modifies this`candidates, this`evidence, this`skills
      ensures Contents() == Support(Chosen(old(Contents()), e, r, now), ChosenId(r), o, e.signal.value.threshold, now)
      ensures promotion == if e.signal.value.kind == SkillKind && candidates[ChosenId(r)].status == Pending
                           then Some(ChosenId(r)) else None
    {
      ghost var before := Contents();
      var s := e.signal.value;
      promotion := None;
      if r.corrected.Some? {
        var m := r.corrected.value;
        skills := skills[m.skill := skills[m.skill].(archived := true)];
        candidates := candidates[m.candidate := candidates[m.candidate].(status := Superseded, updatedAt := now)];
      }
      assert Contents() == Archive(before, r.corrected, now);
      var c := r.newId;
      if r.existing.Some? {
        c := r.existing.value;
      } else {
        candidates := candidates[c := NewCandidate(Contents(), e, r.corrected, now)];
      }
      assert Contents() == Chosen(before, e, r, now);
      var nextStatus := AddEvidence(c, o, s.threshold, now);
      if s.kind == SkillKind && nextStatus == Pending {
        promotion := Some(c);
      }
    }

    /** The evidence row, the recount and the threshold test. */
    method AddEvidence(c: Id, o: Observation, threshold: int, now: int) returns (nextStatus: CandidateStatus)
      requires c in candidates
      modifies this`candidates, this`evidence
      ensures Contents() == Support(old(Contents()), c, o, threshold, now)
      ensures nextStatus == candidates[c].status
    {
      evidence := evidence + {(c, o)};
      var total := |EvidenceOf(evidence, c)|;
      var row := candidates[c];
      nextStatus := row.status;
      if row.status == Collecting && total >= threshold {
        nextStatus := Pending;
      }
      candidates := candidates[c := row.(evidenceCount := total, updatedAt := now, status := nextStatus)];
    }

    /** The whole transaction.  It throws, and restores every row, when the candidates that it would
        leave break their unique constraint. */
    method ProcessClaimedEvent(id: Id, e: Origin, r: Reads, now: int) returns (ok: bool, promotion: Option<Id>)
      requires e.signal.Some? && r.allowed && !r.suppressed ==> ReadsOk(Contents(), e, r, now)
      modifies this
      ensures ok == UniqueStatus(Process(old(Contents()), id, e, r, now).db.candidates)
      ensures Contents() == if ok then Process(old(Contents()), id, e, r, now).db else old(Contents())
      ensures promotion == if ok then Process(old(Contents()), id, e, r, now).promotion else None
    {
      var saved := Contents();
      promotion := None;
      if e.signal.Some? && r.allowed {
        var o := Observation(id, e.signal.value.observationType);
        if !r.suppressed {
          promotion := SupportCandidate(e, r, o, now);
        }
        observations := observations + {o};
      }
      MarkEventProcessed(id);
      assert Processed(Contents(), promotion) == Process(saved, id, e, r, now);
      ok := UniqueStatus(candidates);
      if !ok {
        observations, candidates, evidence, skills := saved.observations, saved.candidates, saved.evidence, saved.skills;
        events := saved.events;
        promotion := None;
      }
    }

    /** The catch block: by id only, whatever has become of the row. */
    method FailEvent(id: Id, attempts: nat, now: int)
      modifies this`events
      ensures Contents() == if id in old(events)
                            then old(Contents()).(events := old(events)[id := FailedEvent(old(events)[id], attempts, now)])
                            else old(Contents())
    {
      if id in events {
        var delaySeconds := Min(3_600, 30 * Pow2(Max(0, attempts - 1)));
        events := events[id := events[id].(status := EventFailed, claimExpiresAt := None,
                                           nextAttemptAt := Some(now + delaySeconds * 1_000))];
      }
    }

    method SweepStalePromotions(now: int) returns (ok: bool)
      modifies this`candidates
      ensures ok == UniqueStatus(SweepStale(old(candidates), now))
      ensures candidates == if ok then SweepStale(old(candidates), now) else old(candidates)
    {
      var saved := candidates;
      candidates := map c | c in candidates ::
          if candidates[c].status == Processing && candidates[c].updatedAt < now - STALE_MS
          then candidates[c].(status := Pending, updatedAt := now) else candidates[c];
      assert candidates == SweepStale(saved, now);
      ok := UniqueStatus(candidates);
      if !ok {
        candidates := saved;
      }
    }

    // ---- learning-worker.ts ----

    method ClaimCandidate(id: Id, now: int) returns (claimed: Option<Candidate>)
      modifies this`candidates
      ensures claimed.Some? <==> id in old(candidates) && Promotable(old(candidates)[id], now)
                                 && UniqueStatus(old(candidates)[id := ClaimedCandidate(old(candidates)[id], now)])
      ensures claimed.Some? ==> claimed.value == ClaimedCandidate(old(candidates)[id], now)
      ensures candidates == if claimed.Some? then old(candidates)[id := claimed.value] else old(candidates)
    {
      claimed := None;
      if id in candidates && Promotable(candidates[id], now) {
        var c := candidates[id];
        c := c.(status := Processing, claimExpiresAt := Some(now + CLAIM_MS), updatedAt := now);
        c := c.(attempts := c.attempts + 1);
        if UniqueStatus(candidates[id := c]) {
          candidates := candidates[id := c];
          claimed := Some(c);
        }
      }
    }

    method RecordAttempt(id: Id, attempt: nat) returns (ok: bool)
      modifies this`attempts
      ensures ok == ((id, attempt) !in old(attempts))
      ensures attempts == if ok then old(attempts)[(id, attempt) := AttemptRunning] else old(attempts)
    {
      ok := (id, attempt) !in attempts;
      if ok {
        attempts := attempts[(id, attempt) := AttemptRunning];
      }
    }

    method UpdateAttempt(id: Id, attempt: nat, status: AttemptStatus)
      modifies this`attempts
      ensures attempts == SetAttempt(old(attempts), id, attempt, status)
    {
      if (id, attempt) in attempts {
        attempts := attempts[(id, attempt) := status];
      }
    }

    /** Puts `row` in place of candidate `id` unless the unique constraint forbids it. */
    method UpdateCandidate(id: Id, row: Candidate) returns (ok: bool)
      modifies this`candidates
      ensures ok == UniqueStatus(old(candidates)[id := row])
      ensures candidates == if ok then old(candidates)[id := row] else old(candidates)
    {
      ok := UniqueStatus(candidates[id := row]);
      if ok {
        candidates := candidates[id := row];
      }
    }

    method RefusePromotion(id: Id, attempt: nat, now: int) returns (ok: bool)
      requires id in candidates
      modifies this`candidates, this`attempts
      ensures ok == UniqueStatus(Refused(old(Contents()), id, attempt, now).candidates)
      ensures Contents() == if ok then Refused(old(Contents()), id, attempt, now) else old(Contents())
    {
      ok := UpdateCandidate(id, candidates[id].(status := Collecting, claimExpiresAt := None, updatedAt := now));
      if ok {
        UpdateAttempt(id, attempt, AttemptSuperseded);
      }
    }

    /** The skill row of the promotion: revised, inserted, or the candidate's own; none where it throws. */
    method WriteSkill(id: Id, p: Proposal, row: Id) returns (found: Option<Id>)
      requires RowOk(Contents(), id, p, row)
      modifies this`skills
      ensures var m := PromotedSkill(old(Contents()), id, p, row);
              && found == (if m.Some? then Some(m.value.0) else None)
              && skills == if m.Some? then old(skills)[m.value.0 := m.value.1] else old(skills)
    {
      found := None;
      if p.payload.SkillPayload? {
        if p.payload.revises.Some? {
          var r := p.payload.revises.value;
          if r.skill in skills && skills[r.skill].user == p.user && skills[r.skill].learned {
            if r.nextVersion == skills[r.skill].version + 1 {
              skills := skills[r.skill :=
                skills[r.skill].(source := Some(id), version := r.nextVersion, archived := false)];
              found := Some(r.skill);
            }
          }
        } else if !NameTaken(skills, p.user, p.payload.name) {
          skills := skills[row := Skill(p.user, p.payload.name, true, Some(id), 1, false)];
          found := Some(row);
        } else if row in skills && OwnSkill(skills[row], p.user, p.payload.name, id) {
          found := Some(row);
          assert skills == skills[row := skills[row]];
        }
      }
    }

    /** The promotion transaction; `row` is the skill row its insert, or its second query, returns. */
    method PromoteCandidate(id: Id, p: Proposal, attempt: nat, row: Id, now: int) returns (ok: bool)
      requires id in candidates && RowOk(Contents(), id, p, row)
      modifies this
      ensures var m := PromotedSkill(old(Contents()), id, p, row);
              && ok == (m.Some? && UniqueStatus(Promoted(old(Contents()), id, attempt, m.value, now).candidates))
              && Contents() == if ok then Promoted(old(Contents()), id, attempt, m.value, now) else old(Contents())
    {
      var saved := Contents();
      var found := WriteSkill(id, p, row);
      if found.None? {
        return false;
      }
      var skill := skills[found.value];
      if (found.value, skill.version) !in revisions {
        revisions := revisions[(found.value, skill.version) := id];
      }
      ok := UpdateCandidate(id, candidates[id].(status := Confirmed, claimExpiresAt := None,
                                                nextAttemptAt := None, updatedAt := now));
      if ok {
        UpdateAttempt(id, attempt, AttemptSucceeded);
      } else {
        skills, revisions := saved.skills, saved.revisions;
      }
    }

    /** The catch block: by id only. */
    method FailPromotion(id: Id, attempt: nat, now: int) returns (ok: bool)
      requires id in candidates
      modifies this`candidates, this`attempts
      ensures ok == UniqueStatus(FailedPromotion(old(Contents()), id, attempt, now).candidates)
      ensures Contents() == if ok then FailedPromotion(old(Contents()), id, attempt, now) else old(Contents())
    {
      var delaySeconds := Min(3_600, 30 * Pow2(Max(0, attempt - 1)));
      ok := UpdateCandidate(id, candidates[id].(status := Pending, claimExpiresAt := None, updatedAt := now,
                                                nextAttemptAt := Some(now + delaySeconds * 1_000)));
      if ok {
        UpdateAttempt(id, attempt, AttemptFailed);
      }
    }

    method SweepExpiredPromotions(now: int) returns (ok: bool)
      modifies this`candidates
      ensures ok == UniqueStatus(SweepExpired(old(candidates), now))
      ensures candidates == if ok then SweepExpired(old(candidates), now) else old(candidates)
    {
      var saved := candidates;
      candidates := map c | c in candidates ::
          if candidates[c].status == Processing && candidates[c].claimExpiresAt.Some?
             && candidates[c].claimExpiresAt.value < now
          then candidates[c].(status := Pending, claimExpiresAt := None, updatedAt := now) else candidates[c];
      assert candidates == SweepExpired(saved, now);
      ok := UniqueStatus(candidates);
      if !ok {
        candidates := saved;
      }
    }
  }
}

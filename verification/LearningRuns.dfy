/** Runs that happen: events that make a candidate, and rows that are not final. */
module LearningRuns {
  import opened Option
  import opened LearningTables
  import opened LearningSystem
  import EvidenceCounts

  /** Some steps lead from one state to the other. */
  ghost predicate Reaches(s: System, t: System) {
    exists steps :: Run(s, steps) == t
  }

  lemma ReachesByRun(s: System, steps: seq<Step>)
    ensures Reaches(s, Run(s, steps))
  {
  }

  lemma ReachesByStep(s: System, t: System, step: Step)
    requires Reaches(s, t)
    ensures Reaches(s, Apply(t, step))
  {
    var steps :| Run(s, steps) == t;
    EvidenceCounts.RunSplit(s, steps, [step]);
    assert [step][1..] == [];
    assert Run(t, [step]) == Apply(t, step);
  }

  lemma ReachesOn(s: System, t: System, u: System)
    requires Reaches(s, t) && Reaches(t, u)
    ensures Reaches(s, u)
  {
    var a :| Run(s, a) == t;
    var b :| Run(t, b) == u;
    EvidenceCounts.RunSplit(s, a, b);
  }

  // ---- Three events under one key ----

  function Arrival(e: Origin): Event {
    Event(e, EventPending, 0, None, None)
  }

  /** An event arrives, is claimed and processed. */
  function ObserveSteps(id: Id, w: Id, e: Origin, r: Reads): seq<Step> {
    [ToArrive(id, Arrival(e)), ToClaimEvent(w, id), ToProcessEvent(w, r)]
  }

  lemma RunThree(s: System, a: Step, b: Step, c: Step)
    ensures Run(s, [a, b, c]) == Apply(Apply(Apply(s, a), b), c)
  {
    assert [a, b, c][1..] == [b, c] && [b, c][1..] == [c] && [c][1..] == [];
    assert Run(s, [a, b, c]) == Run(Apply(s, a), [b, c]);
    assert Run(Apply(s, a), [b, c]) == Run(Apply(Apply(s, a), b), [c]);
  }

  /** The candidate that the event supports, with one more piece of evidence. */
  function SupportedRow(db: Db, e: Origin, r: Reads, o: Observation, now: int): Candidate
    requires e.signal.Some? && (r.existing.Some? ==> r.existing.value in db.candidates)
  {
    var before := if r.existing.Some? then db.candidates[r.existing.value] else NewCandidate(db, e, None, now);
    Touched(before, |EvidenceOf(db.evidence + {(ChosenId(r), o)}, ChosenId(r))|, e.signal.value.threshold, now)
  }

  predicate Fresh(s: System, id: Id, w: Id) {
    id !in s.db.events && id !in s.claims && w !in s.processors
  }

  predicate Plain(r: Reads) {
    r.allowed && !r.suppressed && r.corrected.None?
  }

  /** Everything but the row of the new event, its worker and its claims. */
  ghost predicate SameElse(s: System, after: System, id: Id, w: Id) {
    && after.db.skills == s.db.skills && after.db.revisions == s.db.revisions && after.db.attempts == s.db.attempts
    && after.now == s.now && after.promoters == s.promoters
    && after.db.events.Keys == s.db.events.Keys + {id} && after.processors.Keys == s.processors.Keys + {w}
    && after.claims.Keys == s.claims.Keys + {id}
  }

  /** The event has arrived and worker `w` has claimed it. */
  function Claimed(s: System, id: Id, w: Id, e: Origin): System {
    var row := ClaimedEvent(Arrival(e), s.now);
    s.(db := s.db.(events := s.db.events[id := row]),
       processors := s.processors[w := Processor(id, row, s.now + CLAIM_MS, false)],
       claims := s.claims[id := [Claim(s.now, EventPending)]])
  }

  lemma ClaimArrival(s: System, id: Id, w: Id, e: Origin)
    requires Fresh(s, id, w)
    ensures Apply(Apply(s, ToArrive(id, Arrival(e))), ToClaimEvent(w, id)) == Claimed(s, id, w, e)
  {
    var arrived := Apply(s, ToArrive(id, Arrival(e)));
    assert arrived.db.events[id := ClaimedEvent(Arrival(e), s.now)] == s.db.events[id := ClaimedEvent(Arrival(e), s.now)];
    assert [] + [Claim(s.now, EventPending)] == [Claim(s.now, EventPending)];
  }

  lemma ObserveRun(s: System, id: Id, w: Id, e: Origin, r: Reads)
    requires Fresh(s, id, w)
    ensures Run(s, ObserveSteps(id, w, e, r)) == ProcessEvent(Claimed(s, id, w, e), w, r)
  {
    RunThree(s, ToArrive(id, Arrival(e)), ToClaimEvent(w, id), ToProcessEvent(w, r));
    ClaimArrival(s, id, w, e);
  }

  lemma ProcessPlainly(db: Db, id: Id, e: Origin, r: Reads, now: int)
    requires e.signal.Some? && Plain(r) && ReadsOk(db, e, r, now) && id in db.events
    ensures var o, after := Observation(id, e.signal.value.observationType), Process(db, id, e, r, now).db;
            (&& after.candidates == db.candidates[ChosenId(r) := SupportedRow(db, e, r, o, now)]
             && after.evidence == db.evidence + {(ChosenId(r), o)}
             && after.skills == db.skills && after.revisions == db.revisions && after.attempts == db.attempts
             && after.events.Keys == db.events.Keys)
  {
    var o := Observation(id, e.signal.value.observationType);
    var mid := Chosen(db, e, r, now);
    assert r.existing.None? ==> mid.candidates == db.candidates[r.newId := NewCandidate(db, e, None, now)];
    assert Support(Observed(mid, o), ChosenId(r), o, e.signal.value.threshold, now).candidates
        == db.candidates[ChosenId(r) := SupportedRow(db, e, r, o, now)];
  }

  lemma ProcessStep(t: System, id: Id, w: Id, e: Origin, r: Reads)
    requires w in t.processors && t.processors[w].event == id && t.processors[w].snapshot.origin == e
    requires !t.processors[w].committed && id in t.db.events
    requires e.signal.Some? && Plain(r) && ReadsOk(t.db, e, r, t.now)
    requires var o := Observation(id, e.signal.value.observationType);
             UniqueStatus(t.db.candidates[ChosenId(r) := SupportedRow(t.db, e, r, o, t.now)])
    ensures ProcessEvent(t, w, r) == t.(db := Process(t.db, id, e, r, t.now).db,
                                        processors := t.processors[w := t.processors[w].(committed := true)])
  {
    ProcessPlainly(t.db, id, e, r, t.now);
  }

  /** Events do not matter for what the transaction reads. */
  lemma OnlyCandidatesMatter(db: Db, other: Db, e: Origin, r: Reads, now: int)
    requires e.signal.Some? && Plain(r) && ReadsOk(db, e, r, now)
    requires other.candidates == db.candidates && other.evidence == db.evidence && other.skills == db.skills
    ensures ReadsOk(other, e, r, now)
    ensures forall o :: SupportedRow(other, e, r, o, now) == SupportedRow(db, e, r, o, now)
  {
  }

  /** The claimed event is processed; `s` is the state before it arrived. */
  lemma ClaimedThenProcessed(s: System, t: System, id: Id, w: Id, e: Origin, r: Reads)
    requires Fresh(s, id, w) && e.signal.Some? && Plain(r) && ReadsOk(s.db, e, r, s.now)
    requires var o := Observation(id, e.signal.value.observationType);
             UniqueStatus(s.db.candidates[ChosenId(r) := SupportedRow(s.db, e, r, o, s.now)])
    requires t.db.(events := s.db.events) == s.db && t.db.events.Keys == s.db.events.Keys + {id}
    requires t.now == s.now && t.promoters == s.promoters && t.claims.Keys == s.claims.Keys + {id}
    requires t.processors.Keys == s.processors.Keys + {w} && !t.processors[w].committed
    requires t.processors[w].event == id && t.processors[w].snapshot.origin == e
    ensures var after, o := ProcessEvent(t, w, r), Observation(id, e.signal.value.observationType);
            && after.db.candidates == s.db.candidates[ChosenId(r) := SupportedRow(s.db, e, r, o, s.now)]
            && after.db.evidence == s.db.evidence + {(ChosenId(r), o)} && SameElse(s, after, id, w)
  {
    OnlyCandidatesMatter(s.db, t.db, e, r, s.now);
    ProcessStep(t, id, w, e, r);
    ProcessPlainly(t.db, id, e, r, s.now);
  }

  lemma ClaimedFits(s: System, id: Id, w: Id, e: Origin)
    ensures var t := Claimed(s, id, w, e);
            (&& t.db.(events := s.db.events) == s.db && t.db.events.Keys == s.db.events.Keys + {id}
             && t.now == s.now && t.promoters == s.promoters && t.claims.Keys == s.claims.Keys + {id}
             && t.processors.Keys == s.processors.Keys + {w} && !t.processors[w].committed
             && t.processors[w].event == id && t.processors[w].snapshot.origin == e)
  {
  }

  /** The event of `s` was observed, and `after` is what that leaves. */
  ghost predicate ObservedOnce(s: System, after: System, id: Id, w: Id, e: Origin, r: Reads)
    requires e.signal.Some? && (r.existing.Some? ==> r.existing.value in s.db.candidates)
  {
    var o := Observation(id, e.signal.value.observationType);
    (&& after.db.candidates == s.db.candidates[ChosenId(r) := SupportedRow(s.db, e, r, o, s.now)]
     && after.db.evidence == s.db.evidence + {(ChosenId(r), o)} && SameElse(s, after, id, w))
  }

  lemma ProcessedIsObserved(s: System, id: Id, w: Id, e: Origin, r: Reads)
    requires Fresh(s, id, w) && e.signal.Some? && Plain(r) && ReadsOk(s.db, e, r, s.now)
    requires var o := Observation(id, e.signal.value.observationType);
             UniqueStatus(s.db.candidates[ChosenId(r) := SupportedRow(s.db, e, r, o, s.now)])
    ensures ObservedOnce(s, ProcessEvent(Claimed(s, id, w, e), w, r), id, w, e, r)
  {
    ClaimedFits(s, id, w, e);
    ClaimedThenProcessed(s, Claimed(s, id, w, e), id, w, e, r);
  }

  lemma Observe(s: System, id: Id, w: Id, e: Origin, r: Reads) returns (after: System)
    requires Fresh(s, id, w) && e.signal.Some? && Plain(r) && ReadsOk(s.db, e, r, s.now)
    requires var o := Observation(id, e.signal.value.observationType);
             UniqueStatus(s.db.candidates[ChosenId(r) := SupportedRow(s.db, e, r, o, s.now)])
    ensures Reaches(s, after) && ObservedOnce(s, after, id, w, e, r)
  {
    after := Run(s, ObserveSteps(id, w, e, r));
    ReachesByRun(s, ObserveSteps(id, w, e, r));
    ObserveRun(s, id, w, e, r);
    ProcessedIsObserved(s, id, w, e, r);
  }

  // ---- A candidate from three events ----

  /** No candidate of the event's user and key can be found by the lookup or stands in the way. */
  ghost predicate NoneOpen(db: Db, e: Origin)
    requires e.signal.Some?
  {
    && UniqueStatus(db.candidates)
    && forall c :: c in db.candidates ==> !Open(db.candidates[c], e, e.signal.value.key)
  }

  /** What a skill signal proposes: a new skill named after the key. */
  function Proposed(db: Db, e: Origin, count: nat, status: CandidateStatus, now: int): Candidate
    requires e.signal.Some?
  {
    NewCandidate(db, e, None, now).(evidenceCount := count, status := status)
  }

  predicate SkillSignal(e: Origin) {
    e.signal.Some? && e.signal.value.kind == SkillKind && e.signal.value.threshold == 3
  }

  lemma EvidenceOfMore(evidence: set<(Id, Observation)>, c: Id, o: Observation)
    ensures EvidenceOf(evidence + {(c, o)}, c) == EvidenceOf(evidence, c) + {o}
  {
  }

  lemma PutIsUnique(candidates: map<Id, Candidate>, c: Id, row: Candidate)
    requires UniqueStatus(candidates)
    requires forall d :: d in candidates && d != c ==>
               candidates[d].proposal.user != row.proposal.user || candidates[d].proposal.key != row.proposal.key
               || candidates[d].status != row.status
    ensures UniqueStatus(candidates[c := row])
  {
    var after := candidates[c := row];
    forall a, b | a in after && b in after
      ensures !Clash(after, a, b)
    {
      if a != c && b != c {
        assert !Clash(candidates, a, b);
      }
    }
  }

  /** Candidate `c` collects, with `count` pieces of evidence, and is the only open one under its key. */
  ghost predicate Collects(s: System, base: map<Id, Candidate>, c: Id, e: Origin, count: nat)
    requires e.signal.Some?
  {
    && c !in base && s.db.candidates == base[c := Proposed(s.db, e, count, if count < 3 then Collecting else Pending, s.now)]
    && |EvidenceOf(s.db.evidence, c)| == count
  }

  lemma FirstEvent(s: System, id: Id, w: Id, e: Origin, c: Id) returns (after: System)
    requires SkillSignal(e) && Fresh(s, id, w) && NoneOpen(s.db, e)
    requires c !in s.db.candidates && forall row :: row in s.db.evidence ==> row.0 != c
    ensures Reaches(s, after) && Collects(after, s.db.candidates, c, e, 1) && SameElse(s, after, id, w)
    ensures after.db.evidence == s.db.evidence + {(c, Observation(id, e.signal.value.observationType))}
  {
    var r, o := Reads(true, false, None, None, c), Observation(id, e.signal.value.observationType);
    EvidenceOfMore(s.db.evidence, c, o);
    assert EvidenceOf(s.db.evidence, c) == {};
    assert SupportedRow(s.db, e, r, o, s.now) == Proposed(s.db, e, 1, Collecting, s.now);
    PutIsUnique(s.db.candidates, c, SupportedRow(s.db, e, r, o, s.now));
    after := Observe(s, id, w, e, r);
  }

  lemma NextEvent(s: System, base: map<Id, Candidate>, id: Id, w: Id, e: Origin, c: Id, spare: Id, count: nat)
    returns (after: System)
    requires SkillSignal(e) && Fresh(s, id, w) && 1 <= count < 3 && Collects(s, base, c, e, count)
    requires UniqueStatus(base) && forall d :: d in base ==> !Open(base[d], e, e.signal.value.key)
    requires spare !in s.db.candidates && (c, Observation(id, e.signal.value.observationType)) !in s.db.evidence
    ensures Reaches(s, after) && Collects(after, base, c, e, count + 1) && SameElse(s, after, id, w)
    ensures after.db.evidence == s.db.evidence + {(c, Observation(id, e.signal.value.observationType))}
  {
    var r, o := Reads(true, false, None, Some(c), spare), Observation(id, e.signal.value.observationType);
    NextRow(s, base, e, c, spare, count, o);
    after := Observe(s, id, w, e, r);
    EvidenceOfMore(s.db.evidence, c, o);
  }

  /** The lookup finds the candidate, which gains one piece of evidence. */
  lemma NextRow(s: System, base: map<Id, Candidate>, e: Origin, c: Id, spare: Id, count: nat, o: Observation)
    requires SkillSignal(e) && 1 <= count < 3 && Collects(s, base, c, e, count)
    requires UniqueStatus(base) && forall d :: d in base ==> !Open(base[d], e, e.signal.value.key)
    requires spare !in s.db.candidates && (c, o) !in s.db.evidence
    ensures var r := Reads(true, false, None, Some(c), spare);
            var row := Proposed(s.db, e, count + 1, if count + 1 < 3 then Collecting else Pending, s.now);
            (&& ReadsOk(s.db, e, r, s.now) && SupportedRow(s.db, e, r, o, s.now) == row
             && s.db.candidates[c := row] == base[c := row] && UniqueStatus(base[c := row]))
  {
    var r := Reads(true, false, None, Some(c), spare);
    EvidenceOfMore(s.db.evidence, c, o);
    var row := SupportedRow(s.db, e, r, o, s.now);
    assert row == Proposed(s.db, e, count + 1, if count + 1 < 3 then Collecting else Pending, s.now);
    PutIsUnique(base, c, row);
  }

  /** Nothing is known of the three events and workers from `id` on. */
  predicate FreshFrom(s: System, id: Id) {
    Fresh(s, id, id) && Fresh(s, id + 1, id + 1) && Fresh(s, id + 2, id + 2)
  }

  predicate Either(known: bool, k: nat, lo: nat, hi: nat) {
    known || lo <= k < hi
  }

  /** A candidate that collects, seen from before: what is new carries a number from lo to hi. */
  ghost predicate Grows(s: System, after: System, c: Id, lo: nat, hi: nat) {
    && after.db.skills == s.db.skills && after.db.revisions == s.db.revisions && after.db.attempts == s.db.attempts
    && after.now == s.now && after.promoters == s.promoters
    && (forall k :: k in after.db.events ==> Either(k in s.db.events, k, lo, hi))
    && (forall k :: k in after.processors ==> Either(k in s.processors, k, lo, hi))
    && (forall k :: k in after.claims ==> Either(k in s.claims, k, lo, hi))
    && (forall row :: row in after.db.evidence ==> row in s.db.evidence || (row.0 == c && lo <= row.1.event < hi))
  }

  lemma OneMoreGrows(s: System, mid: System, after: System, c: Id, lo: nat, hi: nat, o: Observation)
    requires lo <= hi && Grows(s, mid, c, lo, hi) && SameElse(mid, after, hi, hi) && o.event == hi
    requires after.db.evidence == mid.db.evidence + {(c, o)}
    ensures Grows(s, after, c, lo, hi + 1)
  {
  }

  /** What steps from `s` on have made of candidate `c`. */
  ghost predicate Collected(s: System, after: System, c: Id, e: Origin, count: nat, lo: nat)
    requires e.signal.Some?
  {
    Collects(after, s.db.candidates, c, e, count) && Grows(s, after, c, lo, lo + count)
  }

  lemma CollectFirst(s: System, id: Id, e: Origin, c: Id) returns (after: System)
    requires SkillSignal(e) && Fresh(s, id, id) && NoneOpen(s.db, e)
    requires c !in s.db.candidates && forall row :: row in s.db.evidence ==> row.0 != c
    ensures Reaches(s, after) && Collected(s, after, c, e, 1, id)
  {
    after := FirstEvent(s, id, id, e, c);
    OneMoreGrows(s, s, after, c, id, id, Observation(id, e.signal.value.observationType));
  }

  lemma CollectNext(s: System, mid: System, id: Id, e: Origin, c: Id, spare: Id, count: nat) returns (after: System)
    requires SkillSignal(e) && Fresh(s, id + count, id + count) && NoneOpen(s.db, e) && 1 <= count < 3
    requires Collected(s, mid, c, e, count, id) && spare !in s.db.candidates && c != spare
    requires forall row :: row in s.db.evidence ==> row.0 != c
    ensures Reaches(mid, after) && Collected(s, after, c, e, count + 1, id)
  {
    after := NextEvent(mid, s.db.candidates, id + count, id + count, e, c, spare, count);
    OneMoreGrows(s, mid, after, c, id, id + count, Observation(id + count, e.signal.value.observationType));
  }

  /** Three events under a key that no open candidate has make a candidate that waits for its promotion. */
  lemma ThreeEvents(s: System, id: Id, e: Origin, c: Id, spare: Id) returns (after: System)
    requires SkillSignal(e) && FreshFrom(s, id) && NoneOpen(s.db, e)
    requires c !in s.db.candidates && spare !in s.db.candidates && c != spare
    requires forall row :: row in s.db.evidence ==> row.0 != c
    ensures Reaches(s, after) && Collected(s, after, c, e, 3, id)
  {
    var one := CollectFirst(s, id, e, c);
    var two := CollectNext(s, one, id, e, c, spare, 1);
    after := CollectNext(s, two, id, e, c, spare, 2);
    ReachesOn(s, one, two);
    ReachesOn(s, two, after);
  }
}

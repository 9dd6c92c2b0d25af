/** The tables that the activity worker and the learning worker share, and the effect of every
    guarded update and transaction on them.  Times are milliseconds. */
module LearningTables {
  import opened Option
  import opened Backoff

  const CLAIM_MS: int := 5 * 60 * 1_000
  const STALE_MS: int := 15 * 60 * 1_000
  const MAX_ATTEMPTS: nat := 8

  type Id = nat

  datatype Scope = Global | Scoped(kind: string, id: Id)

  datatype Kind = MemoryKind | SkillKind | AutomationKind

  /** What `extractLearningSignal` and the suppression hash make of an event: functions of columns
      that no worker updates, so a constant of the row. */
  datatype Signal = Signal(kind: Kind, observationType: string, summary: string, key: string, threshold: int)

  datatype EventStatus = EventPending | EventProcessing | EventProcessed | EventFailed

  /** The columns of an event that are set when it arrives. */
  datatype Origin = Origin(user: Id, scope: Scope, isCorrection: bool, signal: Option<Signal>)

  datatype Event = Event(
    origin: Origin, status: EventStatus, attempts: nat, claimExpiresAt: Option<int>, nextAttemptAt: Option<int>)

  /** Observations are unique on this pair. */
  datatype Observation = Observation(event: Id, observationType: string)

  datatype CandidateStatus = Collecting | Pending | Processing | Confirmed | Ignored | Superseded

  datatype Payload =
    | SkillPayload(name: string, revises: Option<Revises>)
    | OtherPayload

  datatype Revises = Revises(skill: Id, nextVersion: int)

  /** The columns of a candidate that are set when it is proposed. */
  datatype Proposal = Proposal(user: Id, scope: Scope, kind: Kind, payload: Payload, key: string)

  datatype Candidate = Candidate(
    proposal: Proposal, status: CandidateStatus, evidenceCount: nat, attempts: nat,
    claimExpiresAt: Option<int>, nextAttemptAt: Option<int>, updatedAt: int)

  datatype Skill = Skill(user: Id, name: string, learned: bool, source: Option<Id>, version: int, archived: bool)

  datatype AttemptStatus = AttemptRunning | AttemptSucceeded | AttemptFailed | AttemptSuperseded

  datatype Db = Db(
    events: map<Id, Event>,
    observations: set<Observation>,
    candidates: map<Id, Candidate>,
    evidence: set<(Id, Observation)>,         // unique on (candidate, observation)
    skills: map<Id, Skill>,
    revisions: map<(Id, int), Id>,            // (skill, version) to the source candidate
    attempts: map<(Id, nat), AttemptStatus>)  // unique on (candidate, attempt)

  // ---- Constraints and queries ----

  /** UNIQUE (user_id, suppression_key, status) on candidates. */
  predicate UniqueStatus(candidates: map<Id, Candidate>) {
    forall a, b {:trigger Clash(candidates, a, b)} :: a in candidates && b in candidates ==> !Clash(candidates, a, b)
  }

  predicate Clash(candidates: map<Id, Candidate>, a: Id, b: Id)
    requires a in candidates && b in candidates
  {
    && a != b && candidates[a].proposal.user == candidates[b].proposal.user
    && candidates[a].proposal.key == candidates[b].proposal.key
    && candidates[a].status == candidates[b].status
  }

  function EvidenceOf(evidence: set<(Id, Observation)>, c: Id): set<Observation> {
    set row | row in evidence && row.0 == c :: row.1
  }

  predicate Due(at: Option<int>, now: int) {
    at.None? || at.value <= now
  }

  predicate Expired(at: Option<int>, now: int) {
    at.Some? && at.value < now
  }

  // ---- Activity worker: events ----

  predicate Claimable(e: Event, now: int) {
    && e.attempts < MAX_ATTEMPTS
    && match e.status
       case EventPending => Due(e.nextAttemptAt, now)
       case EventFailed => Due(e.nextAttemptAt, now)
       case EventProcessing => Expired(e.claimExpiresAt, now)
       case EventProcessed => false
  }

  function ClaimedEvent(e: Event, now: int): Event {
    e.(status := EventProcessing, claimExpiresAt := Some(now + CLAIM_MS), attempts := e.attempts + 1)
  }

  function FailedEvent(e: Event, attempts: nat, now: int): Event {
    e.(status := EventFailed, claimExpiresAt := None, nextAttemptAt := Some(now + DelaySeconds(attempts) * 1_000))
  }

  function MarkProcessed(db: Db, id: Id): Db {
    if id in db.events && db.events[id].status == EventProcessing then
      db.(events := db.events[id := db.events[id].(status := EventProcessed, claimExpiresAt := None, nextAttemptAt := None)])
    else db
  }

  // ---- Activity worker: the processing transaction ----

  datatype Corrected = Corrected(candidate: Id, skill: Id)

  /** What the transaction reads besides the claimed event: the user's settings, the suppression
      list, the confirmed skill that a correction is about, the open candidate and a fresh id. */
  datatype Reads = Reads(allowed: bool, suppressed: bool, corrected: Option<Corrected>, existing: Option<Id>, newId: Id)

  predicate ActiveLearned(db: Db, e: Origin, m: Corrected) {
    && m.candidate in db.candidates && m.skill in db.skills
    && db.candidates[m.candidate].status == Confirmed
    && (var c := db.candidates[m.candidate].proposal;
        c.user == e.user && c.kind == SkillKind && c.scope == e.scope)
    && db.skills[m.skill].source == Some(m.candidate) && !db.skills[m.skill].archived
  }

  predicate Open(c: Candidate, e: Origin, key: string) {
    c.proposal.user == e.user && c.proposal.key == key && c.status in {Collecting, Pending, Confirmed}
  }

  function Archive(db: Db, m: Option<Corrected>, now: int): Db
    requires m.Some? ==> m.value.candidate in db.candidates && m.value.skill in db.skills
  {
    if m.None? then db else
    db.(skills := db.skills[m.value.skill := db.skills[m.value.skill].(archived := true)],
        candidates := db.candidates[m.value.candidate :=
          db.candidates[m.value.candidate].(status := Superseded, updatedAt := now)])
  }

  /** The rows named by `r` are ones the transaction's own queries can return. */
  predicate ReadsOk(db: Db, e: Origin, r: Reads, now: int)
    requires e.signal.Some?
  {
    && (r.corrected.Some? ==> e.isCorrection && ActiveLearned(db, e, r.corrected.value))
    && (var open := Archive(db, r.corrected, now).candidates;
        && (r.existing.Some? ==> r.existing.value in open && Open(open[r.existing.value], e, e.signal.value.key))
        && (r.existing.None? ==> forall c :: c in open ==> !Open(open[c], e, e.signal.value.key))
        && r.newId !in open)
  }

  function Prefix(s: string, n: nat): string {
    if |s| <= n then s else s[..n]
  }

  function NewCandidate(db: Db, e: Origin, m: Option<Corrected>, now: int): Candidate
    requires e.signal.Some?
    requires m.Some? ==> m.value.skill in db.skills
  {
    var s := e.signal.value;
    var payload :=
      if s.kind != SkillKind then OtherPayload
      else if m.Some? then
        var skill := db.skills[m.value.skill];
        SkillPayload(skill.name, Some(Revises(m.value.skill, skill.version + 1)))
      else SkillPayload("learned-" + Prefix(s.key, 12), None);
    Candidate(Proposal(e.user, e.scope, s.kind, payload, s.key), if s.threshold == 1 then Pending else Collecting,
              1, 0, None, None, now)
  }

  /** The candidate after one more piece of evidence: `total` rows now support it. */
  function Touched(c: Candidate, total: nat, threshold: int, now: int): Candidate {
    c.(evidenceCount := total, updatedAt := now,
       status := if c.status == Collecting && total >= threshold then Pending else c.status)
  }

  /** Evidence and count after the observation was added to candidate `c`. */
  function Support(db: Db, c: Id, o: Observation, threshold: int, now: int): Db
    requires c in db.candidates
  {
    var evidence := db.evidence + {(c, o)};
    db.(evidence := evidence,
        candidates := db.candidates[c := Touched(db.candidates[c], |EvidenceOf(evidence, c)|, threshold, now)])
  }

  function Observed(db: Db, o: Observation): Db {
    db.(observations := db.observations + {o})
  }

  function ChosenId(r: Reads): Id {
    if r.existing.Some? then r.existing.value else r.newId
  }

  /** The tables once the skill under correction is archived and there is a candidate to support. */
  function Chosen(db: Db, e: Origin, r: Reads, now: int): Db
    requires e.signal.Some? && ReadsOk(db, e, r, now)
  {
    var db2 := Archive(db, r.corrected, now);
    if r.existing.Some? then db2
    else db2.(candidates := db2.candidates[r.newId := NewCandidate(db2, e, r.corrected, now)])
  }

  datatype Processed = Processed(db: Db, promotion: Option<Id>)

  /** The processing transaction up to its commit. */
  function Process(db: Db, id: Id, e: Origin, r: Reads, now: int): Processed
    requires e.signal.Some? && r.allowed && !r.suppressed ==> ReadsOk(db, e, r, now)
  {
    if e.signal.None? || !r.allowed then Processed(MarkProcessed(db, id), None) else
    var o := Observation(id, e.signal.value.observationType);
    if r.suppressed then Processed(MarkProcessed(Observed(db, o), id), None) else
    Supported(db, id, e, r, o, now)
  }

  function Supported(db: Db, id: Id, e: Origin, r: Reads, o: Observation, now: int): Processed
    requires e.signal.Some? && ReadsOk(db, e, r, now)
  {
    var s := e.signal.value;
    var c := ChosenId(r);
    var after := Support(Observed(Chosen(db, e, r, now), o), c, o, s.threshold, now);
    Processed(MarkProcessed(after, id),
              if s.kind == SkillKind && after.candidates[c].status == Pending then Some(c) else None)
  }

  /** The activity sweep: promotions that have been `processing` for more than 15 minutes. */
  function SweepStale(candidates: map<Id, Candidate>, now: int): map<Id, Candidate> {
    map c | c in candidates ::
      if candidates[c].status == Processing && candidates[c].updatedAt < now - STALE_MS
      then candidates[c].(status := Pending, updatedAt := now) else candidates[c]
  }

  // ---- Learning worker ----

  predicate Promotable(c: Candidate, now: int) {
    c.proposal.kind == SkillKind && c.status == Pending && c.attempts < MAX_ATTEMPTS && Due(c.nextAttemptAt, now)
  }

  function ClaimedCandidate(c: Candidate, now: int): Candidate {
    c.(status := Processing, claimExpiresAt := Some(now + CLAIM_MS), attempts := c.attempts + 1, updatedAt := now)
  }

  function SetAttempt(attempts: map<(Id, nat), AttemptStatus>, c: Id, n: nat, st: AttemptStatus): map<(Id, nat), AttemptStatus> {
    if (c, n) in attempts then attempts[(c, n) := st] else attempts
  }

  function Refused(db: Db, c: Id, attempt: nat, now: int): Db
    requires c in db.candidates
  {
    db.(candidates := db.candidates[c := db.candidates[c].(status := Collecting, claimExpiresAt := None, updatedAt := now)],
        attempts := SetAttempt(db.attempts, c, attempt, AttemptSuperseded))
  }

  function FailedPromotion(db: Db, c: Id, attempt: nat, now: int): Db
    requires c in db.candidates
  {
    db.(candidates := db.candidates[c := db.candidates[c].(
          status := Pending, claimExpiresAt := None, updatedAt := now,
          nextAttemptAt := Some(now + DelaySeconds(attempt) * 1_000))],
        attempts := SetAttempt(db.attempts, c, attempt, AttemptFailed))
  }

  predicate NameTaken(skills: map<Id, Skill>, user: Id, name: string) {
    exists id :: id in skills && skills[id].user == user && skills[id].name == name
  }

  predicate OwnSkill(skill: Skill, user: Id, name: string, c: Id) {
    skill.user == user && skill.name == name && skill.source == Some(c)
  }

  /** `row` is what the insert, or after a name conflict the second query, returns: a fresh id, the
      candidate's own skill of that name, or anything at all when the query finds nothing. */
  predicate RowOk(db: Db, c: Id, p: Proposal, row: Id) {
    p.payload.SkillPayload? && p.payload.revises.None? ==>
      var name := p.payload.name;
      if NameTaken(db.skills, p.user, name)
      then (row in db.skills && OwnSkill(db.skills[row], p.user, name, c))
           || (forall id :: id in db.skills ==> !OwnSkill(db.skills[id], p.user, name, c))
      else row !in db.skills
  }

  /** The skill row that the promotion transaction leaves current, or None where it throws.
      `p` comes from the row that the claim returned. */
  function PromotedSkill(db: Db, c: Id, p: Proposal, row: Id): Option<(Id, Skill)> {
    match p.payload
    case OtherPayload => None
    case SkillPayload(name, Some(Revises(id, nextVersion))) =>
      if id in db.skills && db.skills[id].user == p.user && db.skills[id].learned
         && nextVersion == db.skills[id].version + 1
      then Some((id, db.skills[id].(source := Some(c), version := nextVersion, archived := false)))
      else None
    case SkillPayload(name, None) =>
      if !NameTaken(db.skills, p.user, name)
      then Some((row, Skill(p.user, name, true, Some(c), 1, false)))
      else if row in db.skills && OwnSkill(db.skills[row], p.user, name, c)
      then Some((row, db.skills[row]))
      else None
  }

  /** The promotion transaction up to its commit. */
  function Promoted(db: Db, c: Id, attempt: nat, promoted: (Id, Skill), now: int): Db
    requires c in db.candidates
  {
    var (id, skill) := promoted;
    db.(skills := db.skills[id := skill],
        revisions := if (id, skill.version) in db.revisions then db.revisions
                     else db.revisions[(id, skill.version) := c],
        candidates := db.candidates[c := db.candidates[c].(
          status := Confirmed, claimExpiresAt := None, nextAttemptAt := None, updatedAt := now)],
        attempts := SetAttempt(db.attempts, c, attempt, AttemptSucceeded))
  }

  /** The promotion sweep: claims that have run out. */
  function SweepExpired(candidates: map<Id, Candidate>, now: int): map<Id, Candidate> {
    map c | c in candidates ::
      if candidates[c].status == Processing && Expired(candidates[c].claimExpiresAt, now)
      then candidates[c].(status := Pending, claimExpiresAt := None, updatedAt := now) else candidates[c]
  }
}

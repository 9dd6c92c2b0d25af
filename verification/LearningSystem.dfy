/** Any number of activity workers and learning workers over the shared tables.  A step is one
    guarded update or one transaction, so workers interleave between steps, act on the row their
    claim returned however stale it has become, and may stop at any point.  A step that is not
    enabled changes nothing, so every list of steps is a run. */
module LearningSystem {
  import opened Option
  import opened LearningTables

  /** A worker inside `processEvent`, after its claim. */
  datatype Processor = Processor(event: Id, snapshot: Event, deadline: int, committed: bool)

  datatype Stage = BeforeAttemptRow | InTry | AfterCommit

  /** A worker inside `promoteCandidate`, after its claim. */
  datatype Promoter = Promoter(candidate: Id, snapshot: Candidate, deadline: int, stage: Stage)

  /** When an event was claimed, and the status it was claimed from. */
  datatype Claim = Claim(at: int, from: EventStatus)

  datatype System = System(
    db: Db, now: int,
    processors: map<Id, Processor>, promoters: map<Id, Promoter>,
    claims: map<Id, seq<Claim>>)  // history only: no step reads it

  datatype Step =
    | ToTick(to: int)
    | ToArrive(id: Id, event: Event)
    | ToClaimEvent(worker: Id, eventId: Id)
    | ToProcessEvent(worker: Id, found: Reads)
    | ToFailEvent(worker: Id)
    | ToStopProcessor(worker: Id)
    | ToSweepStale
    | ToClaimCandidate(worker: Id, candidate: Id)
    | ToRecordAttempt(worker: Id)
    | ToRefusePromotion(worker: Id)
    | ToPromote(worker: Id, row: Id)
    | ToFailPromotion(worker: Id)
    | ToStopPromoter(worker: Id)
    | ToSweepExpired

  /** Evidence that `canAutoPromoteSkill` asks for, whatever the user's settings. */
  const MIN_EVIDENCE: nat := 3

  predicate Arrives(s: System, id: Id, e: Event) {
    id !in s.db.events && e.status == EventPending && e.attempts == 0 && e.claimExpiresAt == None && e.nextAttemptAt == None
  }

  predicate CanClaimEvent(s: System, w: Id, id: Id) {
    w !in s.processors && id in s.db.events && Claimable(s.db.events[id], s.now)
  }

  predicate CanProcess(s: System, w: Id, r: Reads) {
    && w in s.processors && !s.processors[w].committed
    && (s.processors[w].snapshot.origin.signal.Some? && r.allowed && !r.suppressed ==>
          ReadsOk(s.db, s.processors[w].snapshot.origin, r, s.now))
  }

  predicate CanFailEvent(s: System, w: Id) {
    w in s.processors && s.processors[w].event in s.db.events
  }

  predicate CanClaimCandidate(s: System, w: Id, c: Id) {
    w !in s.promoters && c in s.db.candidates && Promotable(s.db.candidates[c], s.now)
  }

  predicate CanRecord(s: System, w: Id) {
    w in s.promoters && s.promoters[w].stage == BeforeAttemptRow
  }

  predicate CanRefuse(s: System, w: Id) {
    w in s.promoters && s.promoters[w].stage == InTry && s.promoters[w].candidate in s.db.candidates
  }

  predicate CanPromote(s: System, w: Id, row: Id) {
    && CanRefuse(s, w) && s.promoters[w].snapshot.evidenceCount >= MIN_EVIDENCE
    && RowOk(s.db, s.promoters[w].candidate, s.promoters[w].snapshot.proposal, row)
  }

  predicate CanFailPromotion(s: System, w: Id) {
    w in s.promoters && s.promoters[w].stage != BeforeAttemptRow && s.promoters[w].candidate in s.db.candidates
  }

  function ClaimsOf(claims: map<Id, seq<Claim>>, id: Id): seq<Claim> {
    if id in claims then claims[id] else []
  }

  function Tick(s: System, to: int): System {
    if to >= s.now then s.(now := to) else s
  }

  function Arrive(s: System, id: Id, e: Event): System {
    if Arrives(s, id, e) then s.(db := s.db.(events := s.db.events[id := e])) else s
  }

  function ClaimEvent(s: System, w: Id, id: Id): System {
    if !CanClaimEvent(s, w, id) then s else
    var e := ClaimedEvent(s.db.events[id], s.now);
    s.(db := s.db.(events := s.db.events[id := e]),
       processors := s.processors[w := Processor(id, e, s.now + CLAIM_MS, false)],
       claims := s.claims[id := ClaimsOf(s.claims, id) + [Claim(s.now, s.db.events[id].status)]])
  }

  /** A transaction whose rows break the candidates' unique constraint throws and changes nothing. */
  function ProcessEvent(s: System, w: Id, r: Reads): System {
    if !CanProcess(s, w, r) then s else
    var p := s.processors[w];
    var after := Process(s.db, p.event, p.snapshot.origin, r, s.now).db;
    if UniqueStatus(after.candidates)
    then s.(db := after, processors := s.processors[w := p.(committed := true)]) else s
  }

  function FailEvent(s: System, w: Id): System {
    if !CanFailEvent(s, w) then s else
    var p := s.processors[w];
    s.(db := s.db.(events := s.db.events[p.event := FailedEvent(s.db.events[p.event], p.snapshot.attempts, s.now)]),
       processors := s.processors - {w})
  }

  function StopProcessor(s: System, w: Id): System {
    s.(processors := s.processors - {w})
  }

  function Sweep(s: System, swept: map<Id, Candidate>): System {
    if UniqueStatus(swept) then s.(db := s.db.(candidates := swept)) else s
  }

  function ClaimCandidate(s: System, w: Id, c: Id): System {
    if !CanClaimCandidate(s, w, c) then s else
    var row := ClaimedCandidate(s.db.candidates[c], s.now);
    var after := s.db.candidates[c := row];
    if UniqueStatus(after)
    then s.(db := s.db.(candidates := after),
            promoters := s.promoters[w := Promoter(c, row, s.now + CLAIM_MS, BeforeAttemptRow)])
    else s
  }

  /** The insert throws, and ends the worker, when the attempt row exists. */
  function RecordAttempt(s: System, w: Id): System {
    if !CanRecord(s, w) then s else
    var p := s.promoters[w];
    var key := (p.candidate, p.snapshot.attempts);
    if key in s.db.attempts then s.(promoters := s.promoters - {w})
    else s.(db := s.db.(attempts := s.db.attempts[key := AttemptRunning]),
            promoters := s.promoters[w := p.(stage := InTry)])
  }

  /** A refusal that commits ends the promotion; one that throws leaves it to the catch block. */
  function RefusePromotion(s: System, w: Id): System {
    if !CanRefuse(s, w) then s else
    var p := s.promoters[w];
    var after := Refused(s.db, p.candidate, p.snapshot.attempts, s.now);
    if UniqueStatus(after.candidates) then s.(db := after, promoters := s.promoters - {w}) else s
  }

  function Promote(s: System, w: Id, row: Id): System {
    if !CanPromote(s, w, row) then s else
    var p := s.promoters[w];
    var m := PromotedSkill(s.db, p.candidate, p.snapshot.proposal, row);
    if m.None? then s else
    var after := Promoted(s.db, p.candidate, p.snapshot.attempts, m.value, s.now);
    if UniqueStatus(after.candidates)
    then s.(db := after, promoters := s.promoters[w := p.(stage := AfterCommit)]) else s
  }

  function FailPromotion(s: System, w: Id): System {
    if !CanFailPromotion(s, w) then s else
    var p := s.promoters[w];
    var after := FailedPromotion(s.db, p.candidate, p.snapshot.attempts, s.now);
    if UniqueStatus(after.candidates) then s.(db := after, promoters := s.promoters - {w})
    else s.(promoters := s.promoters - {w})
  }

  function StopPromoter(s: System, w: Id): System {
    s.(promoters := s.promoters - {w})
  }

  function Apply(s: System, step: Step): System {
    match step
    case ToTick(to) => Tick(s, to)
    case ToArrive(id, e) => Arrive(s, id, e)
    case ToClaimEvent(w, id) => ClaimEvent(s, w, id)
    case ToProcessEvent(w, r) => ProcessEvent(s, w, r)
    case ToFailEvent(w) => FailEvent(s, w)
    case ToStopProcessor(w) => StopProcessor(s, w)
    case ToSweepStale => Sweep(s, SweepStale(s.db.candidates, s.now))
    case ToClaimCandidate(w, c) => ClaimCandidate(s, w, c)
    case ToRecordAttempt(w) => RecordAttempt(s, w)
    case ToRefusePromotion(w) => RefusePromotion(s, w)
    case ToPromote(w, row) => Promote(s, w, row)
    case ToFailPromotion(w) => FailPromotion(s, w)
    case ToStopPromoter(w) => StopPromoter(s, w)
    case ToSweepExpired => Sweep(s, SweepExpired(s.db.candidates, s.now))
  }

  function Run(s: System, steps: seq<Step>): System
    decreases |steps|
  {
    if steps == [] then s else Run(Apply(s, steps[0]), steps[1..])
  }

  /** Nothing learned yet: the only skills are ones that people wrote, each with its own name. */
  predicate Init(s: System) {
    && s.db.events == map[] && s.db.observations == {} && s.db.candidates == map[] && s.db.evidence == {}
    && s.db.attempts == map[] && s.processors == map[] && s.promoters == map[] && s.claims == map[]
    && (forall k :: k in s.db.skills ==> !s.db.skills[k].learned && s.db.skills[k].source == None)
    && (forall a, b :: a in s.db.skills && b in s.db.skills && a != b ==>
          s.db.skills[a].user != s.db.skills[b].user || s.db.skills[a].name != s.db.skills[b].name)
    && (forall r :: r in s.db.revisions ==> r.0 in s.db.skills)
  }
}

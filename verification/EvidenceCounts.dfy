/** Evidence under retries, reclaims and overlapping workers: a candidate's count is its number of
    evidence rows, it counts no event twice, and it never goes down. */
module EvidenceCounts {
  import opened Option
  import opened LearningTables
  import opened LearningSystem
  import Sets

  /** Every observation belongs to an event whose signal has its type, so an event has one at most. */
  predicate ObservationFits(events: map<Id, Event>, o: Observation) {
    && o.event in events
    && events[o.event].origin.signal.Some?
    && events[o.event].origin.signal.value.observationType == o.observationType
  }

  /** Evidence comes from an event of the candidate's own user. */
  predicate EvidenceFits(db: Db, row: (Id, Observation)) {
    && row.0 in db.candidates && row.1 in db.observations && row.1.event in db.events
    && db.events[row.1.event].origin.user == db.candidates[row.0].proposal.user
  }

  ghost predicate Counted(db: Db) {
    && (forall o :: o in db.observations ==> ObservationFits(db.events, o))
    && (forall row :: row in db.evidence ==> EvidenceFits(db, row))
    && (forall c :: c in db.candidates ==> db.candidates[c].evidenceCount == |EvidenceOf(db.evidence, c)|)
  }

  /** Workers hold rows of their own event, with columns that never change. */
  ghost predicate SnapshotsFit(s: System) {
    && (forall w :: w in s.processors ==> ProcessorFits(s.db.events, s.processors[w]))
    && (forall w :: w in s.promoters ==> PromoterFits(s.db.candidates, s.promoters[w]))
  }

  predicate ProcessorFits(events: map<Id, Event>, p: Processor) {
    p.event in events && p.snapshot.origin == events[p.event].origin
  }

  predicate PromoterFits(candidates: map<Id, Candidate>, p: Promoter) {
    p.candidate in candidates && Extended(p.snapshot, candidates[p.candidate])
  }

  /** A later version of a candidate row: only its status, its counters and its times have moved. */
  predicate Extended(a: Candidate, b: Candidate) {
    a.proposal == b.proposal && a.evidenceCount <= b.evidenceCount && a.attempts <= b.attempts
  }

  ghost predicate CandidatesExtend(a: map<Id, Candidate>, b: map<Id, Candidate>) {
    forall c :: c in a ==> c in b && Extended(a[c], b[c])
  }

  predicate EventsExtend(a: map<Id, Event>, b: map<Id, Event>) {
    forall id :: id in a ==> id in b && a[id].origin == b[id].origin
  }

  ghost predicate Inv(s: System) {
    Counted(s.db) && SnapshotsFit(s)
  }

  // ---- The processing transaction ----

  lemma EvidenceGrows(evidence: set<(Id, Observation)>, c: Id, o: Observation)
    ensures EvidenceOf(evidence + {(c, o)}, c) == EvidenceOf(evidence, c) + {o}
    ensures forall d :: d != c ==> EvidenceOf(evidence + {(c, o)}, d) == EvidenceOf(evidence, d)
    ensures |EvidenceOf(evidence, c)| <= |EvidenceOf(evidence + {(c, o)}, c)|
  {
    var more := evidence + {(c, o)};
    assert (c, o) in more;
    forall x | x in EvidenceOf(evidence, c) + {o}
      ensures x in EvidenceOf(more, c)
    {
      assert (c, x) in more;
    }
    forall d | d != c
      ensures EvidenceOf(more, d) == EvidenceOf(evidence, d)
    {
      forall x | x in EvidenceOf(evidence, d)
        ensures x in EvidenceOf(more, d)
      {
        assert (d, x) in more;
      }
    }
    Sets.SubsetSize(EvidenceOf(evidence, c), EvidenceOf(more, c));
  }

  /** Nothing that evidence depends on has changed. */
  ghost predicate Quiet(db: Db, after: Db) {
    && after.evidence == db.evidence && after.observations == db.observations
    && EventsExtend(db.events, after.events)
    && CandidatesExtend(db.candidates, after.candidates)
    && (forall c :: c in after.candidates ==>
          c in db.candidates && after.candidates[c].evidenceCount == db.candidates[c].evidenceCount)
  }

  lemma QuietKeepsCounts(db: Db, after: Db)
    requires Counted(db) && Quiet(db, after)
    ensures Counted(after)
  {
  }

  /** All counts are right, but for the one of the candidate that is about to get its evidence. */
  ghost predicate CountedExcept(db: Db, c: Id) {
    && (forall o :: o in db.observations ==> ObservationFits(db.events, o))
    && (forall row :: row in db.evidence ==> EvidenceFits(db, row))
    && (forall d :: d in db.candidates && d != c ==>
          db.candidates[d].evidenceCount == |EvidenceOf(db.evidence, d)|)
    && c in db.candidates
  }

  lemma ArchiveIsQuiet(db: Db, m: Option<Corrected>, now: int)
    requires m.Some? ==> m.value.candidate in db.candidates && m.value.skill in db.skills
    ensures Quiet(db, Archive(db, m, now))
  {
  }

  lemma InsertKeepsCounts(db: Db, c: Id, row: Candidate)
    requires Counted(db) && c !in db.candidates
    ensures CountedExcept(db.(candidates := db.candidates[c := row]), c)
  {
    forall r | r in db.evidence
      ensures EvidenceFits(db.(candidates := db.candidates[c := row]), r)
    {
      assert EvidenceFits(db, r);
    }
  }

  lemma ChosenKeepsCounts(db: Db, e: Origin, r: Reads, now: int)
    requires Counted(db) && e.signal.Some? && ReadsOk(db, e, r, now)
    ensures var after := Chosen(db, e, r, now);
            && CountedExcept(after, ChosenId(r)) && CandidatesExtend(db.candidates, after.candidates)
            && after.events == db.events && after.evidence == db.evidence
            && after.candidates[ChosenId(r)].proposal.user == e.user
            && (ChosenId(r) in db.candidates ==>
                  after.candidates[ChosenId(r)].evidenceCount == |EvidenceOf(db.evidence, ChosenId(r))|)
  {
    var db2 := Archive(db, r.corrected, now);
    ArchiveIsQuiet(db, r.corrected, now);
    QuietKeepsCounts(db, db2);
    if r.existing.None? {
      InsertKeepsCounts(db2, r.newId, NewCandidate(db2, e, r.corrected, now));
    }
  }

  /** Adding evidence to `c` makes its count right. */
  lemma SupportKeepsCounts(db: Db, c: Id, o: Observation, threshold: int, now: int)
    requires CountedExcept(db, c) && o in db.observations && o.event in db.events
    requires db.events[o.event].origin.user == db.candidates[c].proposal.user
    ensures Counted(Support(db, c, o, threshold, now))
    ensures db.candidates[c].evidenceCount <= |EvidenceOf(db.evidence, c)| ==>
              CandidatesExtend(db.candidates, Support(db, c, o, threshold, now).candidates)
  {
    EvidenceGrows(db.evidence, c, o);
  }

  lemma MarkKeepsCounts(db: Db, id: Id)
    requires Counted(db)
    ensures Counted(MarkProcessed(db, id))
    ensures MarkProcessed(db, id).candidates == db.candidates && EventsExtend(db.events, MarkProcessed(db, id).events)
  {
    QuietKeepsCounts(db, MarkProcessed(db, id));
  }

  /** The second half of the transaction, from any tables `mid` that the first half may leave. */
  lemma SupportFrom(db: Db, mid: Db, c: Id, o: Observation, threshold: int, now: int)
    requires CountedExcept(mid, c) && o in mid.observations && CandidatesExtend(db.candidates, mid.candidates)
    requires c in db.candidates ==> mid.candidates[c].evidenceCount == |EvidenceOf(mid.evidence, c)|
    requires o.event in mid.events && mid.events[o.event].origin.user == mid.candidates[c].proposal.user
    ensures Counted(Support(mid, c, o, threshold, now))
    ensures CandidatesExtend(db.candidates, Support(mid, c, o, threshold, now).candidates)
  {
    var after := Support(mid, c, o, threshold, now);
    SupportKeepsCounts(mid, c, o, threshold, now);
    SupportExtends(db, mid, after, c, after.candidates[c]);
  }

  lemma ObservedKeepsCounts(db: Db, c: Id, o: Observation)
    requires CountedExcept(db, c) && ObservationFits(db.events, o)
    ensures CountedExcept(Observed(db, o), c)
  {
  }

  lemma SupportedKeepsCounts(db: Db, id: Id, e: Origin, r: Reads, o: Observation, now: int)
    requires Counted(db) && ObservationFits(db.events, o) && db.events[o.event].origin == e
    requires e.signal.Some? && ReadsOk(db, e, r, now)
    ensures Counted(Supported(db, id, e, r, o, now).db)
    ensures CandidatesExtend(db.candidates, Supported(db, id, e, r, o, now).db.candidates)
    ensures EventsExtend(db.events, Supported(db, id, e, r, o, now).db.events)
  {
    ChosenKeepsCounts(db, e, r, now);
    ObservedKeepsCounts(Chosen(db, e, r, now), ChosenId(r), o);
    var mid := Observed(Chosen(db, e, r, now), o);
    SupportFrom(db, mid, ChosenId(r), o, e.signal.value.threshold, now);
    MarkKeepsCounts(Support(mid, ChosenId(r), o, e.signal.value.threshold, now), id);
  }

  lemma SupportExtends(db: Db, db1: Db, db2: Db, c: Id, row: Candidate)
    requires CandidatesExtend(db.candidates, db1.candidates) && c in db1.candidates
    requires Counted(db2) && db1.evidence <= db2.evidence
    requires c in db.candidates ==> db1.candidates[c].evidenceCount == |EvidenceOf(db1.evidence, c)|
    requires db2.candidates == db1.candidates[c := row] && Extended(db1.candidates[c].(evidenceCount := 0), row)
    ensures CandidatesExtend(db.candidates, db2.candidates)
  {
    if c in db.candidates {
      Sets.SubsetSize(EvidenceOf(db1.evidence, c), EvidenceOf(db2.evidence, c));
    }
  }

  lemma ProcessKeepsCounts(db: Db, id: Id, e: Origin, r: Reads, now: int)
    requires Counted(db) && id in db.events && db.events[id].origin == e
    requires e.signal.Some? && r.allowed && !r.suppressed ==> ReadsOk(db, e, r, now)
    ensures Counted(Process(db, id, e, r, now).db)
    ensures CandidatesExtend(db.candidates, Process(db, id, e, r, now).db.candidates)
    ensures EventsExtend(db.events, Process(db, id, e, r, now).db.events)
  {
    MarkKeepsCounts(db, id);
    if e.signal.Some? {
      var o := Observation(id, e.signal.value.observationType);
      if r.allowed && !r.suppressed {
        SupportedKeepsCounts(db, id, e, r, o, now);
      } else {
        MarkKeepsCounts(Observed(db, o), id);
      }
    }
  }

  // ---- Every step ----

  /** The tables keep their counts, and no row loses what it was. */
  ghost predicate DbStep(db: Db, after: Db) {
    Counted(after) && CandidatesExtend(db.candidates, after.candidates) && EventsExtend(db.events, after.events)
  }

  /** Workers that stay hold what they held; one that starts holds a row of the table. */
  ghost predicate WorkersStep(s: System, after: System) {
    && (forall w :: w in after.processors ==>
          ProcessorFits(after.db.events, after.processors[w])
          || (w in s.processors && after.processors[w].event == s.processors[w].event
              && after.processors[w].snapshot == s.processors[w].snapshot))
    && (forall w :: w in after.promoters ==>
          PromoterFits(after.db.candidates, after.promoters[w])
          || (w in s.promoters && after.promoters[w].candidate == s.promoters[w].candidate
              && after.promoters[w].snapshot == s.promoters[w].snapshot))
  }

  ghost predicate Good(s: System, after: System) {
    DbStep(s.db, after.db) && WorkersStep(s, after)
  }

  /** A step that neither observes nor supports anything. */
  ghost predicate QuietStep(s: System, after: System) {
    Quiet(s.db, after.db) && WorkersStep(s, after)
  }

  lemma QuietIsGood(s: System, after: System)
    requires Inv(s) && QuietStep(s, after)
    ensures Good(s, after)
  {
    QuietKeepsCounts(s.db, after.db);
  }

  lemma GoodKeeps(s: System, after: System)
    requires Inv(s) && Good(s, after)
    ensures Inv(after)
  {
    forall w | w in after.processors
      ensures ProcessorFits(after.db.events, after.processors[w])
    {
      assert w in s.processors ==> ProcessorFits(s.db.events, s.processors[w]);
    }
    forall w | w in after.promoters
      ensures PromoterFits(after.db.candidates, after.promoters[w])
    {
      assert w in s.promoters ==> PromoterFits(s.db.candidates, s.promoters[w]);
    }
  }

  lemma ArriveIsQuiet(s: System, id: Id, e: Event)
    ensures QuietStep(s, Arrive(s, id, e))
  {
  }

  lemma ClaimEventIsQuiet(s: System, w: Id, id: Id)
    ensures QuietStep(s, ClaimEvent(s, w, id))
  {
  }

  lemma FailEventIsQuiet(s: System, w: Id)
    ensures QuietStep(s, FailEvent(s, w))
  {
  }

  lemma ClaimCandidateIsQuiet(s: System, w: Id, c: Id)
    ensures QuietStep(s, ClaimCandidate(s, w, c))
  {
  }

  lemma RecordIsQuiet(s: System, w: Id)
    ensures QuietStep(s, RecordAttempt(s, w))
  {
  }

  lemma RefuseIsQuiet(s: System, w: Id)
    ensures QuietStep(s, RefusePromotion(s, w))
  {
  }

  lemma PromoteIsQuiet(s: System, w: Id, row: Id)
    ensures QuietStep(s, Promote(s, w, row))
  {
  }

  lemma FailedIsQuiet(db: Db, c: Id, attempt: nat, now: int)
    requires c in db.candidates
    ensures Quiet(db, FailedPromotion(db, c, attempt, now))
  {
  }

  lemma FailPromotionIsQuiet(s: System, w: Id)
    ensures QuietStep(s, FailPromotion(s, w))
  {
    if CanFailPromotion(s, w) {
      FailedIsQuiet(s.db, s.promoters[w].candidate, s.promoters[w].snapshot.attempts, s.now);
    }
  }

  lemma SweepIsQuiet(s: System, swept: map<Id, Candidate>)
    requires Quiet(s.db, s.db.(candidates := swept))
    ensures QuietStep(s, Sweep(s, swept))
  {
  }

  lemma ProcessEventKeepsDb(s: System, w: Id, r: Reads)
    requires Counted(s.db)
    requires w in s.processors ==> ProcessorFits(s.db.events, s.processors[w])
    ensures DbStep(s.db, ProcessEvent(s, w, r).db)
  {
    if CanProcess(s, w, r) {
      ProcessKeepsCounts(s.db, s.processors[w].event, s.processors[w].snapshot.origin, r, s.now);
    }
  }

  lemma ProcessEventKeepsWorkers(s: System, w: Id, r: Reads)
    ensures WorkersStep(s, ProcessEvent(s, w, r))
  {
  }

  lemma EventStepIsQuiet(s: System, step: Step)
    requires step.ToTick? || step.ToArrive? || step.ToClaimEvent? || step.ToFailEvent? || step.ToStopProcessor?
    ensures QuietStep(s, Apply(s, step))
  {
    match step
    case ToTick(to) =>
    case ToArrive(id, e) => ArriveIsQuiet(s, id, e);
    case ToClaimEvent(w, id) => ClaimEventIsQuiet(s, w, id);
    case ToFailEvent(w) => FailEventIsQuiet(s, w);
    case ToStopProcessor(w) =>
  }

  lemma PromoterStepIsQuiet(s: System, step: Step)
    requires step.ToRecordAttempt? || step.ToRefusePromotion? || step.ToPromote? || step.ToFailPromotion? || step.ToStopPromoter?
    ensures QuietStep(s, Apply(s, step))
  {
    match step
    case ToRecordAttempt(w) => RecordIsQuiet(s, w);
    case ToRefusePromotion(w) => RefuseIsQuiet(s, w);
    case ToPromote(w, row) => PromoteIsQuiet(s, w, row);
    case ToFailPromotion(w) => FailPromotionIsQuiet(s, w);
    case ToStopPromoter(w) =>
  }

  lemma StepIsQuiet(s: System, step: Step)
    requires !step.ToProcessEvent?
    ensures QuietStep(s, Apply(s, step))
  {
    match step
    case ToTick(_) => EventStepIsQuiet(s, step);
    case ToArrive(_, _) => EventStepIsQuiet(s, step);
    case ToClaimEvent(_, _) => EventStepIsQuiet(s, step);
    case ToFailEvent(_) => EventStepIsQuiet(s, step);
    case ToStopProcessor(_) => EventStepIsQuiet(s, step);
    case ToSweepStale => SweepIsQuiet(s, SweepStale(s.db.candidates, s.now));
    case ToClaimCandidate(w, c) => ClaimCandidateIsQuiet(s, w, c);
    case ToSweepExpired => SweepIsQuiet(s, SweepExpired(s.db.candidates, s.now));
    case _ => PromoterStepIsQuiet(s, step);
  }

  lemma StepKeeps(s: System, step: Step)
    requires Inv(s)
    ensures Inv(Apply(s, step)) && Good(s, Apply(s, step))
  {
    match step {
      case ToProcessEvent(w, r) =>
        ProcessEventKeepsDb(s, w, r);
        ProcessEventKeepsWorkers(s, w, r);
      case _ =>
        StepIsQuiet(s, step);
        QuietIsGood(s, Apply(s, step));
    }
    GoodKeeps(s, Apply(s, step));
  }

  lemma {:induction false} RunKeeps(s: System, steps: seq<Step>)
    requires Inv(s)
    ensures Inv(Run(s, steps))
    decreases |steps|
  {
    if steps != [] {
      StepKeeps(s, steps[0]);
      RunKeeps(Apply(s, steps[0]), steps[1..]);
    }
  }

  lemma InitHolds(s: System)
    requires Init(s)
    ensures Inv(s)
  {
  }

  // ---- What a reader of the tables sees ----

  function EventsBehind(db: Db, c: Id): set<Id> {
    set o | o in EvidenceOf(db.evidence, c) :: o.event
  }

  lemma {:induction false} InjectiveSize(os: set<Observation>, events: map<Id, Event>)
    requires forall o :: o in os ==> ObservationFits(events, o)
    ensures |set o | o in os :: o.event| == |os|
  {
    var ids := set o | o in os :: o.event;
    if os == {} {
      assert ids == {};
    } else {
      var x :| x in os;
      InjectiveSize(os - {x}, events);
      var rest := set o | o in os - {x} :: o.event;
      assert ids == rest + {x.event};
      assert x.event !in rest;
    }
  }

  /** In every run a candidate's count is its number of evidence rows, and as many distinct events
      stand behind it. */
  lemma CountsDistinctEvents(s: System, steps: seq<Step>, c: Id)
    requires Init(s) && c in Run(s, steps).db.candidates
    ensures var db := Run(s, steps).db;
            db.candidates[c].evidenceCount == |EvidenceOf(db.evidence, c)| == |EventsBehind(db, c)|
  {
    InitHolds(s);
    RunKeeps(s, steps);
    var db := Run(s, steps).db;
    forall o | o in EvidenceOf(db.evidence, c)
      ensures ObservationFits(db.events, o)
    {
      assert (c, o) in db.evidence;
    }
    InjectiveSize(EvidenceOf(db.evidence, c), db.events);
  }

  lemma {:induction false} RunSplit(s: System, a: seq<Step>, b: seq<Step>)
    ensures Run(s, a + b) == Run(Run(s, a), b)
    decreases |a|
  {
    if a == [] {
      assert a + b == b;
    } else {
      assert (a + b)[0] == a[0] && (a + b)[1..] == a[1..] + b;
      RunSplit(Apply(s, a[0]), a[1..], b);
    }
  }

  lemma {:induction false} RunExtends(s: System, steps: seq<Step>)
    requires Inv(s)
    ensures CandidatesExtend(s.db.candidates, Run(s, steps).db.candidates)
    decreases |steps|
  {
    if steps != [] {
      StepKeeps(s, steps[0]);
      RunExtends(Apply(s, steps[0]), steps[1..]);
    }
  }

  /** And all of them are events of the candidate's own user. */
  lemma EvidenceIsOwn(s: System, steps: seq<Step>, c: Id, id: Id)
    requires Init(s) && c in Run(s, steps).db.candidates && id in EventsBehind(Run(s, steps).db, c)
    ensures var db := Run(s, steps).db;
            id in db.events && db.events[id].origin.user == db.candidates[c].proposal.user
  {
    InitHolds(s);
    RunKeeps(s, steps);
    var db := Run(s, steps).db;
    var o :| o in EvidenceOf(db.evidence, c) && o.event == id;
    assert EvidenceFits(db, (c, o));
  }

  /** Between any two moments of a run no count goes down, and no candidate changes what it proposes. */
  lemma CountsNeverDecrease(s: System, before: seq<Step>, after: seq<Step>, c: Id)
    requires Init(s) && c in Run(s, before).db.candidates
    ensures c in Run(s, before + after).db.candidates
    ensures Extended(Run(s, before).db.candidates[c], Run(s, before + after).db.candidates[c])
  {
    InitHolds(s);
    RunKeeps(s, before);
    RunSplit(s, before, after);
    RunExtends(Run(s, before), after);
  }

  lemma SupportedIsTouched(db: Db, id: Id, e: Origin, r: Reads, now: int)
    requires e.signal.Some? && r.allowed && !r.suppressed && ReadsOk(db, e, r, now)
    ensures var after, c := Process(db, id, e, r, now).db, ChosenId(r);
            && c in after.candidates && (c, Observation(id, e.signal.value.observationType)) in after.evidence
            && !(after.candidates[c].status == Collecting && after.candidates[c].evidenceCount >= e.signal.value.threshold)
  {
  }

  /** After any run, the candidate that a committed transaction supports has the event behind it, and is not
      left `collecting` once as many different events stand behind it as its threshold asks for. */
  lemma TouchedLeavesCollecting(s: System, steps: seq<Step>, w: Id, r: Reads)
    requires Init(s) && CanProcess(Run(s, steps), w, r) && r.allowed && !r.suppressed
    requires Run(s, steps).processors[w].snapshot.origin.signal.Some?
    requires w in Run(s, steps + [ToProcessEvent(w, r)]).processors
    requires Run(s, steps + [ToProcessEvent(w, r)]).processors[w].committed
    ensures var p, db, c := Run(s, steps).processors[w], Run(s, steps + [ToProcessEvent(w, r)]).db, ChosenId(r);
            && c in db.candidates && p.event in EventsBehind(db, c)
            && (|EventsBehind(db, c)| >= p.snapshot.origin.signal.value.threshold ==> db.candidates[c].status != Collecting)
  {
    var now, step := Run(s, steps), ToProcessEvent(w, r);
    var p := now.processors[w];
    RunSplit(s, steps, [step]);
    assert [step][1..] == [] && Run(now, [step]) == Apply(now, step);
    SupportedIsTouched(now.db, p.event, p.snapshot.origin, r, now.now);
    CountsDistinctEvents(s, steps + [step], ChosenId(r));
    var o := Observation(p.event, p.snapshot.origin.signal.value.observationType);
    assert o in EvidenceOf(Apply(now, step).db.evidence, ChosenId(r));
  }
}

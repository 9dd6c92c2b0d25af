/** The two kinds of workers at work on one store: every run of the system, carried out in place. */
module LearningFleet {
  import opened Option
  import opened LearningTables
  import opened LearningSystem
  import EventClaims
  import LearningStore

  class Fleet {
    const store: LearningStore.Store
    var now: int
    var processors: map<Id, Processor>
    var promoters: map<Id, Promoter>
    var claims: map<Id, seq<Claim>>

    function Contents(): System
      reads this, store
    {
      System(store.Contents(), now, processors, promoters, claims)
    }

    constructor (store: LearningStore.Store, now: int)
      ensures this.store == store && Contents() == System(store.Contents(), now, map[], map[], map[])
    {
      this.store, this.now, processors, promoters, claims := store, now, map[], map[], map[];
    }

    // ---- Activity workers ----

    method ClaimEvent(w: Id, id: Id)
      modifies this, store
      ensures Contents() == LearningSystem.ClaimEvent(old(Contents()), w, id)
    {
      if w !in processors && id in store.events {
        var from := store.events[id].status;
        var claimed := store.ClaimEvent(id, now);
        if claimed.Some? {
          processors := processors[w := Processor(id, claimed.value, now + CLAIM_MS, false)];
          claims := claims[id := ClaimsOf(claims, id) + [Claim(now, from)]];
        }
      }
    }

    method ProcessEvent(w: Id, r: Reads)
      modifies this, store
      ensures Contents() == LearningSystem.ProcessEvent(old(Contents()), w, r)
    {
      if CanProcess(Contents(), w, r) {
        var p := processors[w];
        var committed, _ := store.ProcessClaimedEvent(p.event, p.snapshot.origin, r, now);
        if committed {
          processors := processors[w := p.(committed := true)];
        }
      }
    }

    method FailEvent(w: Id)
      modifies this, store
      ensures Contents() == LearningSystem.FailEvent(old(Contents()), w)
    {
      if w in processors && processors[w].event in store.events {
        store.FailEvent(processors[w].event, processors[w].snapshot.attempts, now);
        processors := processors - {w};
      }
    }

    // ---- Learning workers ----

    method ClaimCandidate(w: Id, c: Id)
      modifies this, store
      ensures Contents() == LearningSystem.ClaimCandidate(old(Contents()), w, c)
    {
      if w !in promoters {
        var claimed := store.ClaimCandidate(c, now);
        if claimed.Some? {
          promoters := promoters[w := Promoter(c, claimed.value, now + CLAIM_MS, BeforeAttemptRow)];
        }
      }
    }

    method RecordAttempt(w: Id)
      modifies this, store
      ensures Contents() == LearningSystem.RecordAttempt(old(Contents()), w)
    {
      if w in promoters && promoters[w].stage == BeforeAttemptRow {
        var ok := store.RecordAttempt(promoters[w].candidate, promoters[w].snapshot.attempts);
        promoters := if ok then promoters[w := promoters[w].(stage := InTry)] else promoters - {w};
      }
    }

    method RefusePromotion(w: Id)
      modifies this, store
      ensures Contents() == LearningSystem.RefusePromotion(old(Contents()), w)
    {
      if CanRefuse(Contents(), w) {
        var ok := store.RefusePromotion(promoters[w].candidate, promoters[w].snapshot.attempts, now);
        if ok {
          promoters := promoters - {w};
        }
      }
    }

    method Promote(w: Id, row: Id)
      modifies this, store
      ensures Contents() == LearningSystem.Promote(old(Contents()), w, row)
    {
      if CanPromote(Contents(), w, row) {
        var p := promoters[w];
        var ok := store.PromoteCandidate(p.candidate, p.snapshot.proposal, p.snapshot.attempts, row, now);
        if ok {
          promoters := promoters[w := p.(stage := AfterCommit)];
        }
      }
    }

    method FailPromotion(w: Id)
      modifies this, store
      ensures Contents() == LearningSystem.FailPromotion(old(Contents()), w)
    {
      if CanFailPromotion(Contents(), w) {
        var _ := store.FailPromotion(promoters[w].candidate, promoters[w].snapshot.attempts, now);
        promoters := promoters - {w};
      }
    }

    // ---- Runs ----

    /** What activity workers do, and the clock. */
    method PerformEventStep(step: Step)
      requires EventClaims.OfEvents(step)
      modifies this, store
      ensures Contents() == Apply(old(Contents()), step)
    {
      match step {
        case ToTick(to) =>
          if to >= now {
            now := to;
          }
        case ToArrive(id, e) =>
          if Arrives(Contents(), id, e) {
            store.events := store.events[id := e];
          }
        case ToClaimEvent(w, id) => ClaimEvent(w, id);
        case ToProcessEvent(w, r) => ProcessEvent(w, r);
        case ToFailEvent(w) => FailEvent(w);
        case ToStopProcessor(w) => processors := processors - {w};
      }
    }

    /** What learning workers do. */
    method PerformPromotionStep(step: Step)
      requires !EventClaims.OfEvents(step)
      modifies this, store
      ensures Contents() == Apply(old(Contents()), step)
    {
      match step {
        case ToSweepStale =>
          var _ := store.SweepStalePromotions(now);
        case ToSweepExpired =>
          var _ := store.SweepExpiredPromotions(now);
        case ToClaimCandidate(w, c) => ClaimCandidate(w, c);
        case ToRecordAttempt(w) => RecordAttempt(w);
        case ToRefusePromotion(w) => RefusePromotion(w);
        case ToPromote(w, row) => Promote(w, row);
        case ToFailPromotion(w) => FailPromotion(w);
        case ToStopPromoter(w) => promoters := promoters - {w};
      }
    }

    /** The results about runs are about what this method leaves in the store. */
    method Execute(steps: seq<Step>)
      modifies this, store
      ensures Contents() == Run(old(Contents()), steps)
    {
      var i := 0;
      while i < |steps|
        invariant 0 <= i <= |steps|
        invariant Run(Contents(), steps[i..]) == Run(old(Contents()), steps)
      {
        assert steps[i..][0] == steps[i] && steps[i..][1..] == steps[i + 1..];
        if EventClaims.OfEvents(steps[i]) {
          PerformEventStep(steps[i]);
        } else {
          PerformPromotionStep(steps[i]);
        }
        i := i + 1;
      }
    }
  }
}

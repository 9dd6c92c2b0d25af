# Iris OS: a verified model

A Dafny model of the background workers of Iris OS and of the self-contained pieces beside them: a schema
compiler, a text repairer, an env-file rewriter and a handful of stateful utilities. `dafny verify dfyconfig.toml`
checks everything.

## How the model is built

**Workers.** Rows live in maps that stand for tables; the methods of the classes `LearningStore.Store`,
`AutomationTables.Store` and `DurableJobTables.Repository` update them in place, one guarded statement or one
transaction each, and are proved against specification functions (`LearningTables`, `AutomationTables`,
`DurableJobTables`). The modules `LearningSystem`, `AutomationRuns` and `DurableJobs` put any number of workers
over those same functions: a run is any list of steps from an initial state, and a step that is not enabled changes
nothing. The classes `LearningFleet.Fleet`, `AutomationRuns.Fleet` and `DurableJobs.Cluster` carry such lists out in
place: their `Execute` leaves the tables and workers of the run, so that the results on runs are results about them.
Between two steps anything may happen: time passes, other workers act, and a worker keeps the row that its
claim returned, however stale, or never comes back. What a statement reads besides the rows (settings, fresh ids,
which open row a query picks) is data of the step. Fields that record history (`claims`, `leases`, `scheduled`, `waits`,
`manualRetries`) are never read by a step.

`EventEffects`, `PromotionEffects`, `AutomationEffects` and `DurableEffects` say, for every state that a run can reach,
what each step leaves in every column, in numbers and constructors and without the specification functions; the
results on whole runs are in the other modules.

Taken for granted: transactions are atomic, ids and lease tokens are fresh, there is one clock, and the keys of
`src/lib/db/migrations/pg` are enforced: observations by (event, type), evidence by (candidate, observation),
candidates by (user, key, status), skills by (user, name), revisions by (skill, version), attempts by number.

**Code that computes.** The translation of JSON Schema goes into a small syntax of the Zod combinators it uses,
with a meaning for parsing; the schemas have the meaning of sections 6.1.2, 6.2, 6.3, 6.4 and 6.5 of
draft-handrews-json-schema-validation-01. `pattern` is an arbitrary predicate on texts. JavaScript objects appear
as ordered lists of properties (env file), as a heap of objects with prototypes that may be shared and form cycles
(object paths), or as values with a prototype tag (deep equality). The promise chain and the throttle are objects too,
whose `Execute` runs any list of steps.

## What the proofs found

- An event transaction, a promotion and both catch blocks write by id or by a stale snapshot, so neither
  `processed` nor `confirmed` is final: which steps end them is exact (`ProcessedEndsExactlyWhen`,
  `ConfirmedEndsExactlyWhen`), and runs from empty tables show it (`EventReopens`, `CandidateReopens`). Counts,
  revisions and version numbers survive that in every run (`EvidenceCounts`, `SkillVersions`); one live worker per
  row needs that no worker overruns its claim (`TwoLiveProcessors`).
- Each promotion sweep is a single `UPDATE` under the key (user, key, status). It gives back every promotion it picks
  or none, and none exactly when one of them has a `pending` twin (`SweepIsAllOrNothing`, `StaleSweepIsAllOrNothing`).
  Twins arise because the lookup passes over candidates that are `processing`: three events at the threshold of
  three, a promoter that stops after its claim, three more events (`TwinsHappen`). Once no promoter works on either,
  no step ever parts the two, and from the moment the claim has run out no expired promotion of any user is swept
  again (`StuckForGood`).
- The candidate of a correction proposes the next version of the skill, and is carried out whenever the skill has not
  moved on and nothing confirmed stands in its way (`CorrectionCanBeCarriedOut`, `CorrectedSkillReachesTwo`). But only
  one row under a key can be `superseded`: if the correcting signals have the key of those that taught the skill, it
  can be corrected once and then never again, since every such transaction throws (`SecondCorrectionThrows`).
- A revision makes its skill active again, but the insert of a new skill that meets the candidate's own one leaves it
  as it is (`OwnSkillLeaves`): a run from empty tables ends with a confirmed candidate whose skill is archived
  (`ConfirmedButArchived`).
- The bound on the executions of an automation needs no assumption that read and claim see the same attempt
  number: the key of the attempt rows makes every stale claim fail (`StaleClaimsFail`). Retries by hand add one each.
- `finish` of the job repository always returns an object, so the branch of `executeOne` for a lost lease
  (`scripts/workers/durable-job-worker.ts:98-102`) is never taken. Safety comes from the fenced `UPDATE` alone.
- What the produced validator accepts and returns is known for every schema (`TranslationMeaning`, `OutputIs`). It
  differs from draft-07 on the inputs of `JsonSchemaLimits`: among them, a default that is
  dropped (a one-element enum, or a null schema with another default) makes an optional property required, and
  `required` has no effect on untyped properties or on keys without a property.
- Repairing a chart twice can change it twice: when labels cross (`CrossingIsNotIdempotent`), and also when they only
  nest, as in `{a [b (c)]}`, where quoting the outer label escapes the quotes of the inner ones
  (`NestingIsNotIdempotent`). For charts without crossing labels the exact condition on the input is known
  (`NestedIdempotentExactlyWhen`): no label with a parenthesis in a label of a later kind that has to be quoted.
- A throttle whose timer is overdue when a call comes executes twice without the wait in between (`OvertakenTimer`).
  That is the only way: late timers alone do no harm (`LateTimersStaySpaced`, `TooSoonExactlyWhenOvertaken`).
- Parsing with a produced validator is idempotent exactly when every default that a parse can come to is a fixed point
  of its validator (`JsonSchemaDefaults.IdempotentExactlyWhen`).
- On a path that leads over the property it writes, `getByPath` does not read back what `setByPath` wrote, and a second
  write does not override the first (`ReadsBackExactlyWhen`, `SecondWriteOverridesExactlyWhen`; `CycleCutsOff` is an
  object that refers to itself). In a tree that cannot happen, but a write can replace a `null` beside which other
  paths read (`DivergingReadsSameExactlyWhen`, `NullIsReplaced`).
- A path through `__proto__` writes a property that every plain object then shows (`InheritedWriteShows`); the laws of
  `ObjectPath` are about keys that objects do not inherit from `Object.prototype`.

## Model

| member | source | states |
|---|---|---|
| `EvidenceCounts.CountsDistinctEvents` | scripts/workers/activity-worker.ts:295-325 | in every run, retries and overlapping workers included, a candidate's `evidenceCount` is its number of evidence rows, and as many different events stand behind it |
| `EvidenceCounts.EvidenceIsOwn` | scripts/workers/activity-worker.ts:236-301 | every event counted for a candidate belongs to the candidate's own user |
| `EvidenceCounts.CountsNeverDecrease` | scripts/workers/activity-worker.ts:295-325 | between any two moments of a run no count goes down and no candidate changes what it proposes |
| `EvidenceCounts.TouchedLeavesCollecting` | scripts/workers/activity-worker.ts:295-325 | after any run, the candidate that a committed transaction supports has the event behind it, and is not left `collecting` once as many different events stand behind it as its threshold asks for |
| `SkillVersions.RevisionsAreTheVersions` | scripts/workers/learning-worker.ts:149-219 | the revision rows of a learned skill are exactly 1..version, and its source is the candidate of the last one |
| `SkillVersions.OneRevisionPerCandidate` | scripts/workers/learning-worker.ts:149-219 | a candidate stands behind one revision at most: it creates one skill or changes one skill once, stale promoters and retries after a committed success included |
| `SkillVersions.VersionsGrowByOne` | scripts/workers/learning-worker.ts:149-219 | any step after any run moves each skill's version by one or not at all, starts new skills at 1 and leaves hand-written skills alone |
| `SkillVersions.VersionsAreBacked` | src/lib/learning/policy.ts:90-104 | behind every version of a learned skill stand at least three different events of its own user |
| `EventClaims.ClaimedAtMostEightTimes` | scripts/workers/activity-worker.ts:39-81 | in every run `processingAttempts` is the number of claims, and at most 8 |
| `EventClaims.OneLiveProcessor` | scripts/workers/activity-worker.ts:42-81 | if no worker writes after its five minutes, an event never has two live processors |
| `EventClaims.ClaimsAreSpaced` | scripts/workers/activity-worker.ts:357-383 | then claims k and k+1 are at least min(30·2^(k−1), 300) seconds apart |
| `EventClaims.EighthClaimIsLate` | scripts/workers/activity-worker.ts:357-383 | when every attempt ended in failure, the eighth claim is at least 3810 seconds after the first |
| `EventEffects.ClaimLeaves` | scripts/workers/activity-worker.ts:42-81 | a claim goes through exactly for an event with less than eight attempts that is due, or whose five minutes have run out, and leaves it with one attempt more and five minutes |
| `EventEffects.FailLeaves` | scripts/workers/activity-worker.ts:365-383 | after any run the catch block leaves the event failed, free and due min(3600, 30·2^(n−1)) seconds later, n being the worker's attempt |
| `EventEffects.ProcessLeaves` | scripts/workers/activity-worker.ts:83-123 | after any run a committed transaction ends an event that is still `processing`, and without a permitted signal touches nothing else but its observation |
| `EventEffects.FindsExactly` | scripts/workers/activity-worker.ts:165-250 | the rows that the transaction's queries may return: an active learned skill of the event's user and scope to correct, and the open candidate under the key, or none only if there is none |
| `EventEffects.CorrectionLeaves` | scripts/workers/activity-worker.ts:200-216 | a corrected skill is archived and its candidate superseded; without a correction no skill changes |
| `EventEffects.EvidenceLeaves` | scripts/workers/activity-worker.ts:295-302 | one observation and one evidence row are added, and no third candidate changes |
| `EventEffects.OpenCandidateLeaves` | scripts/workers/activity-worker.ts:302-325 | the open candidate is counted again, and waits for its promotion once it was collecting and has enough |
| `EventEffects.NewCandidateLeaves` | scripts/workers/activity-worker.ts:252-301 | otherwise a new candidate of the event's user, scope and key starts with one piece of evidence, and proposes the corrected skill's own name and a version exactly one higher, or a new skill named after the key |
| `EventEffects.AsksForPromotion` | scripts/workers/activity-worker.ts:326-333 | a promotion is asked for exactly when the supported candidate proposes a skill and now waits |
| `EventEffects.CommitsExactlyWhen` | scripts/workers/activity-worker.ts:83-334 | after any run the transaction goes through exactly when no other candidate of the user and key has the status that the supported or the superseded one gets |
| `EventEffects.SecondCorrectionThrows` | scripts/workers/activity-worker.ts:205-212 | once a candidate of the same user and key was superseded, every correction of the skill throws and changes nothing |
| `CorrectionRuns.CorrectionCanBeCarriedOut` | scripts/workers/activity-worker.ts:270-277 | whenever the candidate of a correction is promoted, in any continuation, the skill goes from the corrected version to the next, active and under its name, exactly if it has not moved in the meantime and the unique key lets it; otherwise nothing changes |
| `CorrectionRuns.CorrectedSkillReachesTwo` | scripts/workers/learning-worker.ts:151-176 | a run from empty tables in which a learned skill is corrected, under the same key or another, and reaches version 2, active again; under the same key every later correction of it throws |
| `CorrectionRuns.ConfirmedButArchived` | scripts/workers/learning-worker.ts:193-204 | a run from empty tables that ends with a confirmed candidate whose skill is archived |
| `NotFinal.ProcessedBeginsExactlyWhen` | scripts/workers/activity-worker.ts:336-355 | an event becomes `processed` exactly by the committed transaction of a worker that holds it, while the row is still `processing` |
| `NotFinal.ProcessedEndsExactlyWhen` | scripts/workers/activity-worker.ts:365-383 | it leaves `processed` exactly by the catch block of a worker that holds it |
| `NotFinal.ConfirmedEndsExactlyWhen` | scripts/workers/learning-worker.ts:257-301 | a candidate leaves `confirmed` exactly by the catch block or the refusal of a promoter that holds it, or by a correction of its skill, if the unique key lets them |
| `NotFinal.EventReopens` | scripts/workers/activity-worker.ts:357-383 | a run from empty tables in which the worker that processed an event reopens it |
| `NotFinal.TwoLiveProcessors` | scripts/workers/activity-worker.ts:42-81 | a run from empty tables in which a late catch block lets two workers work on one event, both within their claims |
| `NotFinal.CandidateReopens` | scripts/workers/learning-worker.ts:246-301 | a run from empty tables in which a confirmed candidate waits for promotion again, while its skill stays |
| `PromotionClaims.AttemptsAreBounded` | scripts/workers/learning-worker.ts:36-62 | a candidate is claimed for promotion at most eight times, and its attempt rows are numbered within those claims |
| `PromotionClaims.AttemptRowIsNew` | scripts/workers/learning-worker.ts:94-114 | the insert of an attempt row never meets an existing one, however promoters overlap |
| `PromotionClaims.OneLivePromoter` | scripts/workers/learning-worker.ts:36-62 | if no worker overruns its claim, a candidate never has two live promoters, in spite of the 5-minute and the 15-minute sweep |
| `PromotionClaims.SweepIsAllOrNothing` | scripts/workers/learning-worker.ts:316-331 | after any run the sweep leaves no expired promotion, unless one has a pending twin, in which case it changes nothing |
| `PromotionClaims.StaleSweepIsAllOrNothing` | scripts/workers/activity-worker.ts:396-408 | so does the sweep for promotions that have been under way for over 15 minutes |
| `PromotionEffects.ClaimLeaves` | scripts/workers/learning-worker.ts:36-62 | after any run a skill candidate that waits, is due and was tried less than eight times is claimed for five minutes, exactly if no other of its user and key is `processing` |
| `PromotionEffects.OutOfTurn` | scripts/workers/learning-worker.ts:94-302 | a promoter records its attempt, decides, and comes to its catch block in this order, and promotes nothing with less than three pieces of evidence |
| `PromotionEffects.RefuseLeaves` | scripts/workers/learning-worker.ts:115-146 | after any run a refusal leaves the candidate collecting and its attempt superseded, or nothing changed if another one of the key collects |
| `PromotionEffects.RevisionLeaves` | scripts/workers/learning-worker.ts:151-176 | after any run a promoted revision leaves the skill active, one version higher, with the candidate as source and its name kept, exactly if the version is the next one; candidate confirmed, attempt succeeded, revision recorded, all else as before |
| `PromotionEffects.NewSkillLeaves` | scripts/workers/learning-worker.ts:177-192 | a promoted new skill has its user's, its proposed name, version 1 and the candidate as source, and is active |
| `PromotionEffects.OwnSkillLeaves` | scripts/workers/learning-worker.ts:193-206 | where the user has a skill of that name, the promotion goes through only if it is the candidate's own, and leaves it as it is, archived if it was |
| `PromotionEffects.FailLeaves` | scripts/workers/learning-worker.ts:257-301 | after any run the catch block leaves the candidate waiting for min(3600, 30·2^(n−1)) seconds after attempt n, and the attempt failed, unless another candidate of the key waits |
| `PromotionEffects.SweepExpiredLeaves` | scripts/workers/learning-worker.ts:316-331 | after any run the sweep leaves every promotion whose claim has run out waiting and unclaimed, all other rows as they were, or changes nothing if one of those has a pending twin |
| `PromotionEffects.SweepStaleLeaves` | scripts/workers/activity-worker.ts:396-408 | after any run the other sweep leaves every promotion last touched more than fifteen minutes ago waiting, with its claim still on it, or changes nothing if one of those has a pending twin |
| `TwinCandidates.TwinsHappen` | scripts/workers/activity-worker.ts:236-325 | a run from empty tables, with the threshold of three that signals have, ends with an expired promotion, its pending twin and no promoter |
| `TwinCandidates.StuckForGood` | scripts/workers/learning-worker.ts:316-331 | such a pair stays as it is in every continuation, and from the moment the claim has run out no sweep gives back any promotion |
| `Backoff.TotalDelayClosedForm` | scripts/workers/activity-worker.ts:365-383 | the delays after the first r failures add up to 30·(2^r − 1) seconds up to r = 7 and grow by an hour each from there |
| `LearningStore.Store.ClaimEvent` | scripts/workers/activity-worker.ts:42-81 | the guarded claim changes the row exactly when it may be claimed, and nothing else |
| `LearningStore.Store.SupportCandidate` | scripts/workers/activity-worker.ts:165-325 | the skill under correction is archived, the open candidate or a new one gets the evidence, its recount and its threshold test |
| `LearningStore.Store.ProcessClaimedEvent` | scripts/workers/activity-worker.ts:83-334 | the whole transaction, which restores every row when the candidates' unique key refuses its result |
| `LearningStore.Store.ClaimCandidate` | scripts/workers/learning-worker.ts:36-62 | the guarded claim of a promotion |
| `LearningStore.Store.RefusePromotion` | scripts/workers/learning-worker.ts:115-146 | a promotion that policy refuses goes back to `collecting`, with its attempt superseded |
| `LearningStore.Store.PromoteCandidate` | scripts/workers/learning-worker.ts:149-245 | the promotion transaction: skill, revision, candidate and attempt change together or not at all |
| `LearningStore.Store.WriteSkill` | scripts/workers/learning-worker.ts:149-219 | the skill is revised under its version check, created, or found again after an earlier success; otherwise nothing is written |
| `LearningStore.Store.FailPromotion` | scripts/workers/learning-worker.ts:257-301 | the catch block of a promotion |
| `LearningFleet.Fleet.Execute` | scripts/workers/activity-worker.ts:83-410 | the statements of both workers, carried out in place in the order of any list of steps, leave the tables that the results on runs are about |
| `AutomationRuns.OneExecutor` | scripts/workers/automation-worker.ts:82-112 | under every interleaving of stale reads, cancel and failure writes and user actions a run has one live executor at most, and while it has one it cannot be claimed |
| `AutomationRuns.AttemptRowsAreTheClaims` | scripts/workers/automation-worker.ts:84-111 | the attempt rows are exactly 1..number of successful claims |
| `AutomationRuns.StaleClaimsFail` | scripts/workers/automation-worker.ts:82-112 | a claim with an attempt number from an outdated read changes nothing |
| `AutomationRuns.ExecutionsAreBounded` | scripts/workers/automation-worker.ts:154-158 | a run executes at most `retryLimit` + 1 times, and once more for each retry by hand |
| `AutomationRuns.DelayIsBounded` | scripts/workers/automation-worker.ts:155-181 | what `nextAttemptAt` made the run wait, each time from the moment of the write, adds up to at most 30·(2^r − 1) seconds for r up to 7 and 3810 + 3600·(r − 7) beyond, in milliseconds |
| `AutomationRuns.DelayIsExact` | scripts/workers/automation-worker.ts:155-181 | while attempt n executes, that sum is exactly 30·(2^(n−1) − 1) seconds for n up to 8 and 3810 + 3600·(n − 8) beyond |
| `AutomationEffects.FinishLeaves` | scripts/workers/automation-worker.ts:154-185 | after any run the final write schedules the run again exactly for a timeout or a failure that may be retried while n is within the limit, due min(3600, 30·2^(n−1)) seconds later, and otherwise leaves it ended as its target ended; its own attempt row ends either way, and no other changes |
| `AutomationEffects.ClaimLeaves` | scripts/workers/automation-worker.ts:82-112 | after any run a claim goes through exactly if the run is queued or scheduled again and the read behind it is up to date |
| `AutomationRuns.Fleet.Execute` | scripts/workers/automation-worker.ts:82-185 | workers and users in front of one run, in any order, leave the state that these results are about |
| `AutomationTables.Store.Claim` | scripts/workers/automation-worker.ts:84-111 | the claiming transaction, undone when the attempt number is taken |
| `AutomationTables.Store.Finish` | scripts/workers/automation-worker.ts:154-185 | the final write to run and attempt, with retry decision and backoff |
| `DurableJobs.OutcomeIsFinal` | scripts/workers/durable-job-worker.ts:60-121 | a recorded outcome, its status and its token never change, under lost heartbeats, throwing targets, `finish` calls that throw after taking effect, cancels and retries |
| `DurableJobs.OneOutcomePerLease` | src/lib/jobs/repository.pg.ts:311-346 | a lease records the outcome of one job at most |
| `DurableJobs.EveryOutcomeHasItsRecorder` | scripts/workers/durable-job-worker.ts:88-117 | every recorded outcome goes back to one step of the run: of the worker that held the unexpired lease at that moment and recorded its own outcome, of the sweep once the last lease had run out, or of a user's cancel |
| `DurableJobs.ExecutionsAreBounded` | src/lib/jobs/repository.pg.ts:207-242 | a job's attempts are its claims, and within its limit |
| `DurableJobs.DeliveredOutcomeIsFinal` | scripts/workers/durable-job-worker.ts:129-146 | the inbox holds only final outcomes, a completion is acknowledged only once the inbox holds it, and one waits exactly for each ended job with an inbox |
| `DurableJobs.DeliveriesAreBounded` | src/lib/jobs/repository.pg.ts:423-448 | in every run a completion is leased to publishers at most ten times, and never again once acknowledged |
| `DurableEffects.StatusSaysOutcome` | src/lib/jobs/repository.pg.ts:311-346 | after any run a job is completed, failed or cancelled exactly when its outcome is an output, an error or a cancellation, and has a lease exactly while it runs |
| `DurableEffects.FinishLeaves` | scripts/workers/durable-job-worker.ts:88-106 | after any run, an output returned by the holder of an unexpired lease leaves its job completed with that output, that token, no lease and a completion for its inbox; anybody else changes nothing, whether the call throws afterwards or not |
| `DurableEffects.CatchLeaves` | scripts/workers/durable-job-worker.ts:107-121 | the catch block leaves the job failed with its error, if the worker holds the lease and has not found it lost |
| `DurableEffects.SweepLeaves` | src/lib/jobs/repository.pg.ts:268-309 | a claim leaves every job whose last lease has run out failed with `LEASE_EXPIRED`, whatever job it picks, with a completion for its inbox |
| `DurableEffects.ClaimLeaves` | src/lib/jobs/repository.pg.ts:207-242 | it leases the picked job exactly if that is due, has attempts left, and waits or has lost its worker; other jobs stay |
| `DurableEffects.CancelLeaves` | src/lib/jobs/repository.pg.ts:348-374 | a waiting or running job is cancelled with the reason and a completion; others stay as they are |
| `DurableEffects.RetryLeaves` | src/lib/jobs/repository.pg.ts:376-421 | the holder's job waits for the delay, or is failed with the error after its last attempt |
| `DurableEffects.FinishAnswers` | src/lib/jobs/repository.pg.ts:311-346 | after any run, when `finish` answers not found, applied, replayed or conflict |
| `DurableEffects.FinishIsReplayed` | src/lib/jobs/repository.pg.ts:315-325 | once a lease has recorded an outcome, `finish` under it answers that outcome with a replay and any other with a conflict, in every continuation, and changes nothing |
| `DurableEffects.CancelAnswers` | src/lib/jobs/repository.pg.ts:348-374 | a cancel is applied exactly to jobs without an outcome, replayed for cancelled ones, and a conflict for all that ended otherwise |
| `DurableEffects.ClaimOutboxLeaves` | src/lib/jobs/repository.pg.ts:423-448 | a completion goes out exactly if it is undelivered, due, leased to nobody and was tried less than ten times |
| `DurableJobs.Cluster.Execute` | scripts/workers/durable-job-worker.ts:60-146 | workers, publishers and users in front of one repository and one inbox, in any order, leave the state that these results are about |
| `DurableJobTables.Repository.FailExpiredMaxAttempts` | src/lib/jobs/repository.pg.ts:268-309 | the loop fails exactly the exhausted jobs and adds their completions |
| `DurableJobTables.Repository.Claim` | src/lib/jobs/repository.pg.ts:207-242 | the sweep, then the guarded lease of one job |
| `DurableJobTables.Repository.Heartbeat` | src/lib/jobs/repository.pg.ts:244-266 | only an unexpired lease under the same token is extended |
| `DurableJobTables.Repository.Finish` | src/lib/jobs/repository.pg.ts:311-346 | the fenced finish: applied once, replayed for the same outcome, refused otherwise |
| `DurableJobTables.Repository.Cancel` | src/lib/jobs/repository.pg.ts:348-374 | a queued or running job ends as cancelled |
| `DurableJobTables.Repository.Retry` | src/lib/jobs/repository.pg.ts:376-421 | the holder puts its job back, or fails it after the last attempt |
| `JsonSchemaMeaning.TranslationMeaning` | src/lib/json-schema-to-zod.ts:10-240 | for every schema and every value, the produced validator accepts exactly what the enforced schema says: what is left of the schema once ignored keywords are dropped, integers are held to 2^53 − 1 and `required` is worked out again |
| `JsonSchemaMeaning.AgreesWithDraft07` | src/lib/json-schema-to-zod.ts:10-240 | on plain values (integers within 2^53 − 1, texts of the basic plane) it accepts whatever draft-07 does, and nothing else unless a required property has a default |
| `JsonSchemaMeaning.PropertyAcceptance` | src/lib/json-schema-to-zod.ts:187-205 | a present property is judged by its schema; an absent one is accepted exactly when its schema takes undefined or keeps its default, or when it has no default and is not required |
| `JsonSchemaMeaning.AcceptedNumbers` | src/lib/json-schema-to-zod.ts:59-113 | the numbers that a number or integer schema lets through: bounds met or surpassed, a whole multiple, and for integers a whole number of at most 2^53 − 1 |
| `JsonSchemaMeaning.AcceptedTexts` | src/lib/json-schema-to-zod.ts:37-57 | the texts, by number of characters and pattern |
| `JsonSchemaMeaning.AcceptedArrays` | src/lib/json-schema-to-zod.ts:126-168 | the arrays, by size and by what the element schema accepts |
| `JsonSchemaOutputs.AbsentIs` | src/lib/json-schema-to-zod.ts:10-240 | for every schema, an absent value becomes exactly the schema's default if that is kept, stays absent if undefined is taken, and is refused otherwise |
| `JsonSchemaOutputs.OutputIs` | src/lib/json-schema-to-zod.ts:10-240 | for every schema, every accepted value comes out with the defaults of absent properties filled in and unknown keys stripped, at every depth, and otherwise as it was |
| `JsonSchemaOutputs.ObjectOutput` | src/lib/json-schema-to-zod.ts:187-215 | property by property: an absent one holds exactly its default or stays absent, a present one holds what parsing with its own schema returns, and no other key is in the output |
| `JsonSchemaDefaults.IdempotentExactlyWhen` | src/lib/json-schema-to-zod.ts:10-240 | parsing every output again gives the same output exactly when every default that a parse can come to is a fixed point of its validator |
| `JsonSchemaDefaults.OutputIsFilledIn` | src/lib/json-schema-to-zod.ts:187-215 | then every property with a default is present in an output, at every depth |
| `JsonSchemaDefaults.ParsingSettles` | src/lib/json-schema-to-zod.ts:10-240 | then the output of a translated schema is the filled-in input, is accepted again, unchanged, and is complete |
| `JsonSchemaToZod.JsonSchemaToZod` | src/lib/json-schema-to-zod.ts:10-240 | the translation with its builders and its loop over properties computes the translation that the results are about |
| `JsonSchemaLimits.LostDefaultsRefuse` | src/lib/json-schema-to-zod.ts:16-18 | an optional property whose default is dropped becomes required |
| `JsonSchemaLimits.RequiredIgnored` | src/lib/json-schema-to-zod.ts:187-205 | `required` has no effect on untyped or boolean properties and on keys without a property |
| `JsonSchemaLimits.ItemListIgnored` | src/lib/json-schema-to-zod.ts:127-148 | a list of item schemas is ignored |
| `JsonSchemaLimits.RulesIgnored` | src/lib/json-schema-to-zod.ts:228-238 | so are a type beside an enum and rules without a type |
| `JsonSchemaLimits.FalseIgnored` | src/lib/json-schema-to-zod.ts:187-205 | a property whose schema allows nothing may have any value |
| `JsonSchemaLimits.FalseItemsIgnored` | src/lib/json-schema-to-zod.ts:127-148 | and so may elements |
| `JsonSchemaLimits.EnumRulesIgnored` | src/lib/json-schema-to-zod.ts:20-54 | rules for texts beside an enum are ignored |
| `JsonSchemaLimits.UntypedRulesIgnored` | src/lib/json-schema-to-zod.ts:228-238 | without a type, rules for texts, sizes and required keys are ignored |
| `JsonSchemaLimits.UntypedPartsIgnored` | src/lib/json-schema-to-zod.ts:228-238 | and so are schemas for elements and properties |
| `JsonSchemaLimits.PlainValuesOnly` | src/lib/json-schema-to-zod.ts:87-113 | large integers are refused, and lengths count UTF-16 units |
| `JsonSchemaLimits.DefaultsFillRequired` | src/lib/json-schema-to-zod.ts:198-202 | a required property with a default may be absent |
| `Mermaid.PassIsIdempotent` | src/lib/mermaid-sanitize.ts:20-42 | each of the four passes is idempotent |
| `Mermaid.PassKeepsTokens` | src/lib/mermaid-sanitize.ts:20-42 | a second pass sees the same labels and the same text between them |
| `Mermaid.PassRewritesLabels` | src/lib/mermaid-sanitize.ts:20-42 | a pass replaces label bodies and nothing else: text, delimiters and line ends stay in place |
| `Mermaid.TokensRender` | src/lib/mermaid-sanitize.ts:20-42 | labels and the text between them are the whole chart |
| `Mermaid.PassKeepsMarks` | src/lib/mermaid-sanitize.ts:20-42 | delimiters and line ends keep their number and order |
| `Mermaid.PassMakesSafe` | src/lib/mermaid-sanitize.ts:11-18 | afterwards every label is free of quotes and parentheses or quoted at both ends |
| `Mermaid.PassFixes` | src/lib/mermaid-sanitize.ts:20-42 | a pass changes a chart exactly when one of its labels is not safe |
| `Mermaid.LabelKeepsItsText` | src/lib/mermaid-sanitize.ts:11-18 | a rewritten label is quoted and reads as the original exactly when that did not hold `#quot;` |
| `Mermaid.UnchangedExactlyWhenSafe` | src/lib/mermaid-sanitize.ts:20-42 | the whole function changes a chart exactly when a label of one of the four kinds is not safe |
| `MermaidIdempotence.NestedIdempotentExactlyWhen` | src/lib/mermaid-sanitize.ts:20-42 | for every chart whose labels do not cross, a second run changes nothing exactly when no label with a parenthesis lies in one of a later kind that is not quoted as it stands, or that an unquoted one of an earlier kind encloses |
| `MermaidIdempotence.PartsIdempotentExactlyWhen` | src/lib/mermaid-sanitize.ts:20-42 | the same for charts that consist of parts like that and parts that need no repair, in which labels may cross |
| `MermaidIdempotence.SeparateIsIdempotent` | src/lib/mermaid-sanitize.ts:20-42 | in particular a second run changes nothing if no label holds a delimiter of an earlier kind |
| `MermaidIdempotence.NestingIsNotIdempotent` | src/lib/mermaid-sanitize.ts:20-42 | a family of charts with nested labels that a second run changes again |
| `MermaidTrees.PassDraws` | src/lib/mermaid-sanitize.ts:20-42 | on charts whose labels do not cross, a pass is a rewriting of the tree of labels |
| `MermaidFrames.FourPasses` | src/lib/mermaid-sanitize.ts:20-42 | on the tree of labels with parentheses, after four passes all are quoted exactly under that condition |
| `MermaidLabels.PartsAreRepaired` | src/lib/mermaid-sanitize.ts:20-42 | parts that no label crosses are repaired independently |
| `Mermaid.IdempotentExactlyWhen` | src/lib/mermaid-sanitize.ts:20-42 | for any chart, a second run changes nothing exactly when all labels of the first result are safe |
| `Mermaid.CrossingIsNotIdempotent` | src/lib/mermaid-sanitize.ts:20-42 | a family of charts with crossing labels that a second run changes again |
| `EnvFile.ParseRoundTrips` | scripts/parse-openai-compatiable.ts:41-67 | printing what was parsed from any text and parsing it again gives the same variables in the same order |
| `EnvFile.UpdateSetsExactlyWhen` | scripts/parse-openai-compatiable.ts:41-67 | the updated file parses to the old variables with this one set exactly when the variable fits on a line, or is `__proto__` |
| `EnvFile.UpdateChangesOneKey` | scripts/parse-openai-compatiable.ts:57-67 | looking up any key afterwards gives the new value for this key and the old one for every other |
| `EnvFile.UpdateIsIdempotent` | scripts/parse-openai-compatiable.ts:57-67 | the same update again gives the same text |
| `EnvFile.PrintParses` | scripts/parse-openai-compatiable.ts:59-67 | any variables that fit on lines, in the order of an object, survive printing and parsing |
| `EnvFileReading.ParsedExactlyWhen` | scripts/parse-openai-compatiable.ts:44-55 | a line is taken for a variable exactly when it is `key=value` with any blanks around it, its key not starting with `#` |
| `EnvFileReading.LastLineWins` | scripts/parse-openai-compatiable.ts:44-55 | for every text, a key other than `__proto__` has a value exactly if that is the one of the last line that assigns to the key |
| `EnvFileReading.ReadInOrder` | scripts/parse-openai-compatiable.ts:41-60 | for every text, variables named like array indices come first, ascending, and all others in the order of their first lines |
| `EnvFileReading.PrintedLines` | scripts/parse-openai-compatiable.ts:59-67 | a printed file has one line `key=value` for each variable, in order, and nothing else |
| `EnvFile.UpdateEnvVariable` | scripts/parse-openai-compatiable.ts:41-67 | the parsing loop, the assignment and the printing loop compute the update that the results are about |
| `PromiseChain.StartsInOrder` | src/lib/utils.ts:142-149 | tasks start in the order of their submission, each once |
| `PromiseChain.OneAtATime` | src/lib/utils.ts:142-149 | when a task starts, every earlier one has ended |
| `PromiseChain.OwnOutcome` | src/lib/utils.ts:142-149 | the promise of a caller comes to what the caller's own task came to |
| `PromiseChain.NothingIsBlocked` | src/lib/utils.ts:142-149 | when nothing is left to do every submitted task was run and every caller has an outcome, whatever was rejected |
| `PromiseChain.EveryStepCounts` | src/lib/utils.ts:142-149 | every effective step other than a submission brings that moment nearer by exactly one |
| `PromiseChain.LeftIsAtMost` | src/lib/utils.ts:142-149 | n submitted tasks need at most 4n such steps |
| `PromiseChain.Chain.Execute` | src/lib/utils.ts:142-149 | submissions, jobs and endings of tasks, in any order, leave the promises that these results are about |
| `Throttle.RunsAreSpaced` | src/lib/utils.ts:94-127 | with punctual timers, executions i and j of one segment are at least (j − i) waits apart |
| `Throttle.EveryCallIsFollowed` | src/lib/utils.ts:94-127 | every call is followed by an execution within the wait |
| `Throttle.PendingTimerIsDue` | src/lib/utils.ts:108-114 | a pending timer is due one wait after the last execution |
| `Throttle.LateTimersStaySpaced` | src/lib/utils.ts:94-127 | however late timers fire, executions are at least the wait apart, as long as no call comes while a timer is overdue |
| `Throttle.TooSoonExactlyWhenOvertaken` | src/lib/utils.ts:98-116 | after any run, the execution of a due timer comes too soon exactly when a call of that run was executed less than the wait ago while this timer was overdue |
| `Throttle.CallsAreNeverTooSoon` | src/lib/utils.ts:98-107 | after any run, a call that is executed at once is at least the wait after the last execution |
| `Throttle.OvertakenTimer` | src/lib/utils.ts:98-116 | runs in which two executions fall on one instant |
| `Throttle.Timeline.Execute` | src/lib/utils.ts:94-127 | calls, timers and clears, in any order, leave the executions that these results are about |
| `UniqueKey.GenerateUniqueKey` | src/lib/utils.ts:317-333 | the result is not in the list, is the first free successor on the same base, and is found within as many iterations as there are distinct keys |
| `UniqueKey.SuccessorsDiffer` | src/lib/utils.ts:324-329 | the keys tried are all different |
| `UniqueKey.TakenAreFew` | src/lib/utils.ts:321-331 | as many keys as were tried and taken exist in the list |
| `ObjectPath.SetKeepsRooted` | src/lib/utils.ts:280-291 | every write, through `__proto__` too and where it throws, leaves a heap in which references lead somewhere and prototype chains hang together |
| `ObjectPath.SetIsOneEdge` | src/lib/utils.ts:280-291 | on keys that objects do not inherit, the whole effect of a write: one property of one old object changes and the missing objects are added, or it throws before it changes anything |
| `ObjectPath.OtherReadingsStay` | src/lib/utils.ts:272-291 | sharing, cycles and prototypes included, a reading that does not look at the written property is unchanged |
| `ObjectPath.ReadsBack` | src/lib/utils.ts:272-291 | the path just written reads the value, if the way to it does not lead over the written property |
| `ObjectPath.WrittenPathReads` | src/lib/utils.ts:272-291 | otherwise it reads the value if that is falsy, and else what the rest of the path reads from the value, for every value |
| `ObjectPath.ReadsBackExactlyWhen` | src/lib/utils.ts:272-291 | for values that are neither texts nor objects, the path reads the value exactly when it is falsy or the way does not lead over the written property |
| `ObjectPath.SecondWriteOverrides` | src/lib/utils.ts:280-291 | if the way does not lead over the written property, a second write to the path leaves what it alone would have left |
| `ObjectPath.SecondWriteOverridesExactlyWhen` | src/lib/utils.ts:280-291 | and only then, unless the first value is an object |
| `ObjectPath.CycleCutsOff` | src/lib/utils.ts:272-291 | an object that refers to itself, on which both fail |
| `ObjectPath.InheritedWriteShows` | src/lib/utils.ts:272-291 | what is written through `__proto__` is read from every plain object without a property of its own |
| `ObjectPrototypes.PrototypeIsWritten` | src/lib/utils.ts:280-291 | a path that ends in `__proto__` hangs an object under a new prototype, or under none, ignores other values, and throws for cycles and for a prototype of `Object.prototype` |
| `ObjectPrototypes.NewPrototypeShows` | src/lib/utils.ts:272-291 | afterwards the object reads its own properties, and every other one as its new prototype did |
| `ObjectPrototypes.HeirsFollow` | src/lib/utils.ts:272-291 | objects below it read what it reads, unless they find the property before it, and all others read as before |
| `ObjectPrototypes.FalsyIsReturned` | src/lib/utils.ts:272-279 | a path that comes to undefined, null, false, 0, NaN or an empty text returns that, however long it is |
| `ObjectPrototypes.TextsHaveCharacters` | src/lib/utils.ts:272-279 | in a text a path reads its length, the characters under its indices, and nothing else |
| `ObjectTrees.DivergingReadsSameExactlyWhen` | src/lib/utils.ts:272-291 | in a tree a diverging path reads as before, except exactly where it read a null that the write replaced |
| `ObjectTrees.TreeWriteIsNotBefore` | src/lib/utils.ts:280-291 | in a tree the way to a write never leads over the written property |
| `ObjectTrees.NullIsReplaced` | src/lib/utils.ts:272-291 | such a null: undefined is read afterwards |
| `ObjectHeap.Memory.SetByPath` | src/lib/utils.ts:280-291 | the loop over the path writes, creates, follows prototypes and throws as these results say |
| `ObjectHeap.Memory.GetByPath` | src/lib/utils.ts:272-279 | the loop over the path stops at the first falsy value and returns it |
| `DeepEqual.Equal` | src/lib/equal.ts:1-59 | the comparison decides structural equality |
| `DeepEqual.EqualEntries` | src/lib/equal.ts:31-55 | size and one-sided lookup decide that two maps or objects have the same keys with equal values |
| `DeepEqual.EqualMembers` | src/lib/equal.ts:38-44 | size and one-sided lookup decide that two sets have the same members |
| `DeepEqualForms.SameExactlyWhen` | src/lib/equal.ts:1-59 | structural equality is equality of forms in which entries are a map, members a set, and every other part of a value is kept |
| `DeepEqual.Reflexive` | src/lib/equal.ts:1-59 | every value equals itself, NaN included |
| `DeepEqual.Symmetric` | src/lib/equal.ts:1-59 | equality is symmetric |
| `DeepEqual.Transitive` | src/lib/equal.ts:1-59 | equality is transitive |

## Left out

- Other writers of learning rows: the review route for candidates, the revision routes for skills, and retention deletes.
- How signals, similarity, confidence and suppression keys are computed: constants of an event or data of a step.
- Memory and automation candidates are counted but not promoted by these workers, so only skills have versions.
- `delegation-worker.ts`, `parent-resume-worker.ts`, `run-recovery-worker.ts`, `memory-worker.ts` and `iris-worker.ts`: their logic is in other modules, and would repeat the claim patterns proved here.
- Queue delivery, the bounded drain loops, timers of heartbeats and activity logging: a step may happen at any time or never.
- Recording a lease as lost aborts the target through its signal; what a target does with it is not part of this model.
- EventClaims.OneLiveProcessor: assumes that no worker writes after its claim has run out; otherwise a second worker can be at work.
- EventClaims.ClaimsAreSpaced: the same assumption; a worker that overruns its claim can set a failed event back while another one works on it.
- EventClaims.EighthClaimIsLate: the same assumption.
- PromotionClaims.OneLivePromoter: the same assumption; the results on counts, versions and attempt numbers do without it.
- JsonSchemaMeaning.TranslationMeaning: type lists, enums of other values than strings and keywords that the translator does not read are not modelled.
- JsonSchemaMeaning.AgreesWithDraft07: `Supported` is sufficient, and each of its clauses has a witness in `JsonSchemaLimits`, but schemas outside it that happen to agree are not singled out; numbers are reals, so rounding in `multipleOf` is not modelled.
- Mermaid.IdempotentExactlyWhen: its condition looks at the labels of the first result, not at the input.
- MermaidIdempotence.PartsIdempotentExactlyWhen: where labels cross and need repair, no condition on the chart is given, only the family of `CrossingIsNotIdempotent`.
- UniqueKey.GenerateUniqueKey: numbers below 2^53 only, where JavaScript adds and prints whole numbers exactly; beyond that it can try the same key again.
- ObjectHeap.Memory.GetByPath: the length of arrays, properties that primitives inherit, own properties named `__proto__` and accessors other than `__proto__` are not modelled.
- ObjectHeap.Memory.SetByPath: the same.
- ObjectPath.ReadsBackExactlyWhen: leaves texts and objects to `WrittenPathReads`; a text can be its own first character, an object can lead to itself.
- ObjectPath.SecondWriteOverridesExactlyWhen: leaves first values that are objects, which the second write may follow.
- DeepEqual.Equal: values with cycles, Map keys and Set members that are objects with a content, and objects that borrow the prototype of another kind are not modelled.
- EnvFile.UpdateEnvVariable: reading and writing the file, and their errors.
- Throttle.Timeline.Execute: the functions that are executed; the results are for a wait that does not change.

# SupportPilot: verified models

SupportPilot is a multi-tenant support agent with a delegation broker, a memory service, an action
queue with human approval, and a training range that arms and restores its controls. This project
models the parts that keep state over unbounded runs or rewrite unbounded data, and proves what
they keep.

`dafny verify dfyconfig.toml` checks everything. One module per component:

| module | models |
|---|---|
| `CanonicalJson` | the canonical payload text an approval is bound to, and a parser that reads it back |
| `ActionProtocol` | propose, approve, claim, verify, reserve, call, reconcile, record: interleaved workers, crashes, expired leases, tampering, and the worker loop as a class |
| `ActionSteps`, `ActionLeases` | what decides each step of the queue in every reached state; what a lease and a backoff keep off |
| `ActionResults` | when FAILED hides an effect, when a key can still land, when an action is stuck |
| `MemoryStore`, `MemoryResults`, `MemoryPoints`, `MemoryOrigins`, `MemoryService`, `MemoryRecall` | records and vector points linked by an outbox; forget, repair and reconciliation; what becomes of one record's points; who wrote and who confirmed each record; who finds what in both layouts, and paging |
| `Broker`, `BrokerRuns` | token exchange (sections 2.1 and 4.1 of RFC 8693), chains, the gateway, the profiles file, whole runs |
| `ActionDocument`, `ProfileDocuments` | inlining of enum and body schemas, popping, pruning, and the per-profile projection against the gateway |
| `Rules`, `Context`, `History` | rule lifecycle behind a trigger and a savepoint, context assembly, transcript paging |
| `PolicyBundle`, `Reset` | the policy bundle file, OPA's last start and the probe; the reset sweep |
| `Strings`, `Wrappers` | Python's string order and `sorted`; option and result types |

How the source's form is kept: objects that change are classes whose methods are tied to a pure
step function (`Worker`, `Memory`, `Spec`, `ProfileDocument`, `RuleBook`, `History.Store`, `Lab`,
`Range`); loops are loops with invariants; the properties are lemmas about the step functions over
every run. Row-level security is a visibility predicate, a trigger is a refusal, a transaction or
savepoint is all or nothing. Signatures are ideal (a token is one this broker minted, or a genuine
user token) and SHA-256 is a parameter, collision-free where a result needs it.

## What the proofs found

Where a promise fails, the condition on which it holds is proved exactly, with a run or an input that
shows it fail.

* **An enum reference inside a list stays hidden.** `inline_enum_refs` replaces dictionary values
  only, so `anyOf: [{"$ref": E}, {"type": "null"}]`, an optional enum field, keeps its reference
  (`ListReferenceStaysHidden`). `WalkShowsEveryEnum` is the condition for none to stay, and
  `CompiledPropertiesShowEveryEnum` carries it to the finished document. Keywords beside a reference
  are kept or dropped without regard to meaning; `EnumInliningIsExact` and `BodyInliningIsExact` say
  exactly when that is harmless.
* **FAILED may hide an effect.** `FailedHidesOverRuns` says when, over every run, and
  `FailedHidesExactly` what one turn of the calling worker has to do with it. Three runs from the
  empty system end so: an error after the provider acted (`ErrorRunHidesTheEffect`), a worker that is
  merely slow between reserving and calling (`SlowHolderHidesTheEffect`), and a worker that dies after
  the provider said yes, whose successor finds the approval expired (`DeathRunHidesTheEffect`).
* **A retry never reaches the provider.** The comment at processor.py:280 calls the retry safe; the
  reserved key means it can only reconcile again (`RetryNeverReachesProvider`). A reserved key lands
  later exactly if a worker already stands before its call (`CanStillLandExactly`).
* **An action can be stuck for good**, exactly when its third attempt died with its worker
  (`StuckExactlyWhenOrphaned`, `OrphanIsReachable`).
* **The worker's moves are not all on the published map.** It moves actions from APPROVED straight
  to EXECUTING, SUCCEEDED or FAILED and never through QUEUED. `StateMoves` says exactly which moves
  are off the map: those that leave APPROVED after the decision.
* **The gateway can answer 500.** A user token is accepted for thirty seconds after it expires, and
  the gateway's mint is outside its `try`: `GatewayMintsExactly` gives the exact condition, and
  it is exactly where the exchange answers 400 for an expired token (`LeewayCrashIsA400`).
* **A failed confirmation is never mended.** memories.py:371-374 says reconcile names a row that stays
  pending. It compares hashes only (`NamedExactly`), so a confirmation that fails before a layout
  leaves that point saying unconfirmed for good, unnamed (`FailedConfirmIsReachable`,
  `ConfirmShadowsExactly`, `ShadowedForever`), and recall there never finds the memory again
  (`ShadowedIsNeverFound`).
* **Withdrawing automatic confirmation misses summaries.** The recovery of 0009 is to send every memory
  born confirmed back to unconfirmed. A summary takes its source's status as the user's own, so one
  made in the meantime stays confirmed on nobody's word (`RevocationMissesSummaries`);
  `RevocationReachesOriginals` says exactly what the recovery does reach, and `ConfirmedIsVouchedFor`
  where each confirmation comes from.
* **Three kinds of slug mix tenants**: `shared`, one that two tenants have, and `None`, which is how
  a missing slug reads. `PrivateExactly` shows there is no fourth, `StrangerGetsInExactly` how the
  stranger's memory gets in.
* **A memory-init that stops in the middle of its sweep makes the two layouts rank different
  candidates** (`InterruptedSweepSplitsLayouts`) until a complete one heals them
  (`LayoutsReturnTheSame`); `LayoutsDifferExactly` says when, over every run. What recall gives back
  is the same throughout (`RecallIgnoresLayout`).
* **The probe reads starts, not running.** A stopped OPA still probes `correct`
  (`StoppedStillAnswers`), and a write in the very instant of a start is taken for read: the probe is
  truthful exactly when there is none (`ProbeIsTruthfulExactly`).
* **Pruning keeps whatever a cycle of mentions holds up**, used or not (`SurvivesPruningExactly`).

## Model

| member | source | states |
|---|---|---|
| CanonicalJson.CanonicalParsesBack | services/api/src/supportpilot_api/actions/state.py:85-92 | the canonical text of any payload is read back by a parser, as the payload with sorted keys, which means what the payload meant |
| CanonicalJson.CanonicalIffSameMeaning | services/api/src/supportpilot_api/actions/state.py:85-92 | two payloads have one canonical text if and only if they are equal as key-to-value maps at every depth, whatever their insertion order |
| CanonicalJson.HashBindsMeaning | services/api/src/supportpilot_api/actions/state.py:95-104 | with a collision-free hash, hashes match exactly for payloads that mean the same |
| CanonicalJson.ValueRoundTrip | services/api/src/supportpilot_api/actions/state.py:92 | the printed text of any value, followed by anything that may follow a value, parses to exactly that value and that remainder |
| CanonicalJson.ReadEscapedText | services/api/src/supportpilot_api/actions/state.py:92 | an escaped string of any characters is read back unchanged up to its closing quote (section 7 of RFC 8259) |
| CanonicalJson.SortKeepsMeaning | services/api/src/supportpilot_api/actions/state.py:92 | sorting the keys at every depth does not change what a payload means |
| CanonicalJson.SortedDetermined | services/api/src/supportpilot_api/actions/state.py:92 | two payloads with sorted keys that mean the same are the same payload |
| CanonicalJson.EscapesExactly | services/api/src/supportpilot_api/actions/state.py:92 | the escapes as `json.dumps` writes them, character by character: the two-letter forms, four digits for other controls, and every other character as itself |
| CanonicalJson.DumpsWords | services/api/src/supportpilot_api/actions/state.py:92 | the words, numbers, and empty collections as they are written |
| CanonicalJson.DumpsItems | services/api/src/supportpilot_api/actions/state.py:92 | an array is its items with commas between and no space |
| CanonicalJson.DumpsMembers | services/api/src/supportpilot_api/actions/state.py:92 | an object is its members with commas between, key and value parted by a colon, no space |
| Strings.LessExactly | services/api/src/supportpilot_api/actions/state.py:92 | the order keys are sorted by: by the first character that differs, a beginning before the whole |
| ActionProtocol.PathBound | services/api/src/supportpilot_api/actions/state.py:37-55 | along any path on the map, moves made plus moves left never exceed the moves left at its start plus two for each requeue |
| ActionProtocol.RunLengthIsTight | services/api/src/supportpilot_api/actions/state.py:37-55 | a path from PROPOSED with k requeues has at most 5 + 2k moves, and one path has exactly that many |
| ActionProtocol.KeyNamesAction | services/api/src/supportpilot_api/actions/state.py:107-114 | two equal idempotency keys belong to one action |
| ActionProtocol.NextKeeps | services/worker/src/supportpilot_worker/jobs/processor.py:161-371 | every event of the protocol, in any interleaving of workers, keeps the invariant: reservations, phases, approvals and effects agree, no key is called twice, no action has two effects, and nothing recorded is taken back |
| ActionProtocol.RunKeeps | services/worker/src/supportpilot_worker/main.py:166-201 | so does every run |
| ActionProtocol.EffectsAreApproved | services/worker/src/supportpilot_worker/jobs/processor.py:209-237 | in every run with tampering, crashes and expired leases, each effect carries a payload whose hash somebody other than the requester approved, and any payload with that hash means the same |
| ActionProtocol.AtMostOneEffect | services/worker/src/supportpilot_worker/jobs/processor.py:240-269 | in every run no key is ever sent to the provider twice and no action has two effects |
| ActionProtocol.SucceededMeansDone | services/worker/src/supportpilot_worker/jobs/processor.py:292-346 | an action in SUCCEEDED has exactly one effect |
| ActionProtocol.RejectedNeverExecutes | services/worker/src/supportpilot_worker/jobs/processor.py:219-222 | a rejected action never has an effect, whatever is done to its row |
| ActionProtocol.ExecutesWhatWasProposed | services/worker/src/supportpilot_worker/jobs/processor.py:229-235 | while nobody rewrites a stored hash, each effect means what was proposed, even if the stored payload was rewritten |
| ActionProtocol.SpentForever | services/worker/src/supportpilot_worker/jobs/processor.py:247-258 | a reserved key nobody is about to call with never lands an effect later |
| ActionProtocol.RetryNeverReachesProvider | services/worker/src/supportpilot_worker/jobs/processor.py:279-282 | after a provider failure is recorded as retryable with nothing landed and no other worker about to call, nothing ever lands under that key |
| ActionProtocol.OrphanForever | services/worker/src/supportpilot_worker/jobs/processor.py:67-78 | a decided job whose attempts are spent and which no worker holds is never claimed again, and neither it nor its action's state changes |
| ActionProtocol.OrphanIsReachable | services/worker/src/supportpilot_worker/jobs/processor.py:67-78 | three claims and three deaths lead there from any fresh approved job |
| ActionProtocol.StateMoves | services/worker/src/supportpilot_worker/jobs/processor.py:305-322 | every move an event makes on an action leaves PENDING_APPROVAL, APPROVED or EXECUTING, never a final state, and is on the published map exactly when it does not leave APPROVED |
| ActionProtocol.ApprovedActionVerifies | services/worker/src/supportpilot_worker/jobs/processor.py:209-237 | a fresh proposal approved by somebody else and claimed passes every check, under its own key |
| ActionProtocol.VerifiedJobSucceeds | services/worker/src/supportpilot_worker/jobs/processor.py:240-269 | a verified job whose key is free has one more effect and ends SUCCEEDED when the provider succeeds |
| ActionProtocol.Worker.Oldest | services/worker/src/supportpilot_worker/jobs/processor.py:67-78 | the job chosen is ready, and no ready job has been available for longer; none only if none is ready; what ready means over runs is `LeaseEndsExactly` and `BackoffEndsExactly` |
| ActionProtocol.Worker.TakeJob | services/worker/src/supportpilot_worker/jobs/processor.py:176-206 | the job so chosen is claimed by one enabled step of the protocol, and nothing changes when none is ready; so what `LeaseExcludes` says holds of every job taken |
| ActionProtocol.Worker.Check | services/worker/src/supportpilot_worker/jobs/processor.py:209-237 | the checks agree with the protocol's, in the order the worker makes them |
| ActionProtocol.Worker.RecordOutcome | services/worker/src/supportpilot_worker/jobs/processor.py:292-346 | recording is one atomic step on execution, job and action |
| ActionProtocol.Worker.RefuseJob | services/worker/src/supportpilot_worker/jobs/processor.py:348-371 | a refusal closes job and action without touching the provider |
| ActionProtocol.Worker.Reconcile | services/worker/src/supportpilot_worker/jobs/processor.py:271-290 | asks whether the key landed and records the answer, or raises; exactly the lookup and record steps |
| ActionProtocol.Worker.TryReserve | services/worker/src/supportpilot_worker/jobs/processor.py:247-258 | a reservation takes a free key and otherwise turns to reconciling |
| ActionProtocol.Worker.CallProvider | services/worker/src/supportpilot_worker/adapters/refund.py:66-91 | one call appends one key, one effect if it landed, and nothing else |
| ActionProtocol.Worker.Execute | services/worker/src/supportpilot_worker/jobs/processor.py:240-269 | reserves, then calls and records, or only reconciles if the key was taken; exactly those steps, and it raises exactly when the call or a lookup did |
| ActionProtocol.Worker.Process | services/worker/src/supportpilot_worker/main.py:179-201 | verifies, executes, and refuses exactly what failed a check or raised, each job to its end |
| ActionProtocol.ProcessedIsARun | services/worker/src/supportpilot_worker/main.py:179-201 | what is done with a claimed job is a run of the protocol, given event by event |
| ActionProtocol.Worker.Run | services/worker/src/supportpilot_worker/main.py:166-201 | the loop takes the oldest ready job on every turn and takes it all the way, with anything happening elsewhere between turns; the whole is a run of the protocol, so every result about runs holds of it |
| ActionLeases.LeaseExcludes | services/worker/src/supportpilot_worker/jobs/processor.py:67-78 | after a claim, in every run of any workers that waits no longer than the lease and in which no holder records or refuses that job, the job stays exactly as claimed and no further worker comes to hold it |
| ActionLeases.LeaseEndsExactly | services/worker/src/supportpilot_worker/jobs/processor.py:67-78 | after any wait, an idle worker that asks for a job another one claimed gets it if and only if more than the lease has passed and an attempt is left |
| ActionLeases.BackoffHolds | services/worker/src/supportpilot_worker/jobs/processor.py:306-330 | a job put back by a recorded failure changes at no event of any run, and nobody comes to hold it, before thirty seconds times two to the attempts have passed |
| ActionLeases.BackoffEndsExactly | services/worker/src/supportpilot_worker/jobs/processor.py:306-330 | after any wait it can be claimed if and only if that time has passed and an attempt is left |
| ActionSteps.DecisionCountsExactly | services/api/src/supportpilot_api/repositories/actions.py:258-330 | in every reached state a decision changes anything if and only if somebody other than the requester makes it on a pending, unexpired action and presents its hash; then it is on record and a job is queued exactly for an approval |
| ActionSteps.ClaimReadsTheRow | services/worker/src/supportpilot_worker/jobs/processor.py:176-206 | a claimed job holds what job and action said at the claim, field by field, with one attempt more, and nothing else changes |
| ActionSteps.ChecksPassExactly | services/worker/src/supportpilot_worker/jobs/processor.py:209-237 | in every reached state a claimed job passes the checks if and only if its state allows it, the approval has not expired, and the hashes of payload, row and decision are one; the key is then its id, a colon and 32 characters of the hash |
| ActionSteps.ReserveDecidesExactly | services/worker/src/supportpilot_worker/jobs/processor.py:247-258 | a free key is reserved as unclear, a taken one leads to asking the provider, each if and only if; no other execution changes |
| ActionSteps.ReplyDecidesExactly | services/worker/src/supportpilot_worker/jobs/processor.py:261-269 | where a reply leads, each if and only if: an unclear one to asking the provider, an error to refusing, any other to recording it |
| ActionSteps.RecordDecidesExactly | services/worker/src/supportpilot_worker/jobs/processor.py:292-346 | in every reached state a recorded outcome closes job and action as succeeded exactly for a success, puts them back exactly for a failure with attempts left, and otherwise fails both |
| ActionSteps.ChosenExactly | services/worker/src/supportpilot_worker/jobs/processor.py:67-78 | a turn takes a job with an attempt left that waits for nothing or whose lease is over, none such available for longer; and none if and only if there is none |
| ActionSteps.TurnEndsExactly | services/worker/src/supportpilot_worker/main.py:179-201 | in every reached state a turn with a claimed job leaves the worker free, has called the provider exactly if the checks passed and the key was free, and leaves the job failed exactly for a refusal, an error or a failure on the last attempt, done exactly if the provider was found to have acted, and put back otherwise |
| ActionResults.FailedHidesOverRuns | services/worker/src/supportpilot_worker/jobs/processor.py:292-371 | over every run, with crashes, expiry, tampering and any interleaving: an action is FAILED with an effect behind it if and only if at some step a refusal or a last failure was recorded for it after the provider had acted, or the provider acted on it after it was FAILED |
| ActionResults.FailedHidesExactly | services/worker/src/supportpilot_worker/main.py:195-201 | within one uninterrupted turn from its call on, a worker leaves the action FAILED with an effect behind it if and only if the provider acts and the action was given up already, the call raises, the lookup after an ambiguous reply raises, or a failure is reported on the last attempt |
| ActionResults.ErrorRunHidesTheEffect | services/worker/src/supportpilot_worker/main.py:198-201 | a run from the empty system that ends so by an error after the provider acted |
| ActionResults.SlowHolderHidesTheEffect | services/worker/src/supportpilot_worker/jobs/processor.py:67-78 | a run from the empty system that ends so with no error at all: two retries by another worker use up the attempts while the first stands before its call |
| ActionResults.DeathRunHidesTheEffect | services/worker/src/supportpilot_worker/jobs/processor.py:348-371 | a run from the empty system that ends so on the first attempt: the provider acts and says so, the worker dies, and the next one finds the approval expired and refuses |
| ActionResults.CanStillLandExactly | services/worker/src/supportpilot_worker/jobs/processor.py:247-258 | a reserved key under which nothing has landed can still land if and only if some worker stands between reserving it and calling with it |
| ActionResults.StuckExactlyWhenOrphaned | services/worker/src/supportpilot_worker/jobs/processor.py:67-78 | in every reached state, no continuation ever closes an action in the workers' hands if and only if its attempts are spent and no worker holds it |
| MemoryStore.NextKeeps | services/memory/src/supportpilot_memory/memories.py:105-425 | every request, setting change and repair step, wherever its apply phase stops, keeps the store invariants; with forgetting complete, that no live record hangs under a forgotten one and every stale or missing point has a pending row; and agreement of the two layouts unless a sweep is interrupted |
| MemoryStore.RunKeeps | services/memory/src/supportpilot_memory/memories.py:105-425 | so does every run |
| MemoryStore.StartOk | services/memory/src/supportpilot_memory/init.py:200-223 | the first memory-init over the seeds establishes all of them |
| MemoryStore.InitHeals | services/memory/src/supportpilot_memory/init.py:200-223 | whatever interrupted sweeps left apart, an error-free memory-init with forgetting complete makes the layouts agree again |
| MemoryStore.VisibleWalk | services/memory/src/supportpilot_memory/memories.py:224-233 | walking only the rows the caller sees reaches exactly the live rows under the root, all the caller's own |
| MemoryStore.ForgetReach | services/memory/src/supportpilot_memory/memories.py:223-242 | what forget removes contains the root, is all visible, and is closed under live derivation |
| MemoryStore.UpsertAt | services/memory/src/supportpilot_memory/vectors.py:98-105 | an upsert stopped anywhere changes exactly one point, in the layouts it got to, and each of its fields is the record's: owner, channel, status, hash, content, and the organisation in the shared copy only |
| MemoryStore.DeleteAt | services/memory/src/supportpilot_memory/vectors.py:107-113 | a delete stopped anywhere removes exactly the given points, in the layouts it got to |
| MemoryStore.TenantCollectionInjective | services/memory/src/supportpilot_memory/vectors.py:72-81 | two slugs share a collection exactly when they are equal |
| MemoryResults.DisagreementsArePending | services/memory/src/supportpilot_memory/qdrant_setup.py:172-205 | in every run with forgetting complete, whatever failed, everything reconcile names is a missing or a stale point and has the matching pending outbox row |
| MemoryResults.InitRepairs | services/memory/src/supportpilot_memory/qdrant_setup.py:76-169 | after any run, an error-free memory-init leaves reconcile exactly the points of forgotten records while forgetting is armed, and nothing else |
| MemoryResults.InitWithScopeAllIsClean | services/memory/src/supportpilot_memory/init.py:200-223 | with forgetting back at its secure value the repaired store is clean |
| MemoryResults.ForgetReachesDescendants | services/memory/src/supportpilot_memory/memories.py:215-248 | in any state, what a visible walk removes is the whole set of live descendants if and only if no earlier forget left a derivation behind below the record |
| MemoryResults.ForgetIsComplete | services/memory/src/supportpilot_memory/memories.py:199-253 | in every run that never armed primary-only forgetting, a forget marks exactly the live descendants and leaves every other record as it was |
| MemoryResults.CompleteForgetsIsExact | services/memory/src/supportpilot_memory/init.py:154-192 | from any state, completing forgets leaves no live record under a forgotten one, forgets exactly those that hung under one, and changes nothing else |
| MemoryPoints.NamedExactly | services/memory/src/supportpilot_memory/qdrant_setup.py:172-205 | after any run reconcile names a record if and only if some collection lacks the point of a live record or holds that of a forgotten one; what a point says of its record's status is never named, pending or not |
| MemoryPoints.ConfirmShadowsExactly | services/memory/src/supportpilot_memory/memories.py:260-287 | a confirmation leaves a collection's point saying unconfirmed if and only if its upsert never reached that collection |
| MemoryPoints.ShadowedForever | services/memory/src/supportpilot_memory/memories.py:105-425 | such a point is mended by no later request, revocation or memory-init: it stays until the record is forgotten |
| MemoryPoints.FailedConfirmIsReachable | services/memory/src/supportpilot_memory/memories.py:371-374 | a run from the first memory-init that ends so with the row pending and reconcile clean |
| MemoryPoints.ForgottenPointStays | services/memory/src/supportpilot_memory/qdrant_setup.py:144-169 | a forgotten record stays as it was in every continuation, and its point stays in a collection exactly until that collection is swept |
| MemoryPoints.InitWritesExactly | services/memory/src/supportpilot_memory/qdrant_setup.py:76-169 | every point after a memory-init without an error: kept, swept, or written from its record, field by field, exactly where a live record lacked one |
| MemoryPoints.ArmedForgetExactly | services/memory/src/supportpilot_memory/memories.py:215-248 | while forgetting is armed it marks the one visible record and leaves every other record, every point and the outbox |
| MemoryOrigins.EveryRecordWasWritten | services/memory/src/supportpilot_memory/memories.py:105-140 | in every run each record that was not seeded was written by one request of its owner, with that request's words or as a summary of the source it names, and was not there before |
| MemoryOrigins.ConfirmedIsVouchedFor | services/memory/src/supportpilot_memory/memories.py:105-369 | in every run a confirmed record goes back, summary by summary and within one owner, to a record seeded so, confirmed by that owner, or written by that owner while the deployment confirmed by itself |
| MemoryOrigins.RevokedExactly | database/memory/migrations/0009_range_observations.sql:245-262 | withdrawing automatic confirmation makes unconfirmed exactly the live records nobody else confirmed |
| MemoryOrigins.RevocationReachesOriginals | database/memory/migrations/0009_range_observations.sql:240-262 | after withdrawing automatic confirmation, in every run, a live memory that is no summary is confirmed if and only if it was seeded so or its owner confirmed it; the status of a summary is never touched |
| MemoryOrigins.RevocationMissesSummaries | database/memory/migrations/0010_range_leftovers.sql:16-24 | a run from the empty store in which nobody confirms anything and after which, the setting off and withdrawn, a summary is still confirmed |
| MemoryOrigins.SummaryGoesWithItsSource | services/memory/src/supportpilot_memory/memories.py:199-253 | a summary of a memory is forgotten with it, wherever either request stopped applying |
| MemoryOrigins.SummaryExactly | services/memory/src/supportpilot_memory/memories.py:331-369 | a summary holds all of a text of at most 160 characters and the first 157 of a longer one, in its source's status, and nothing else is written |
| MemoryResults.OnlyMixedGetIn | services/memory/src/supportpilot_memory/vectors.py:72-113 | in every reached state, another organisation's record in a tenant's collection is one whose organisation mixes with the tenant: its slug is that slug, or the slug is the shared one's |
| MemoryResults.StrangerGetsInExactly | services/memory/src/supportpilot_memory/qdrant_setup.py:114-118 | memory-init puts another organisation's seeded memory into a tenant's collection if and only if the two mix |
| MemoryResults.PrivateExactly | services/memory/src/supportpilot_memory/vectors.py:72-113 | a tenant's collection holds only its own organisation's memories in every run from every seed if and only if its slug is not `shared`, belongs to no other tenant, and is not `None` where some organisation has no tenant entry |
| MemoryService.Memory.ApplyUpserts | services/memory/src/supportpilot_memory/memories.py:391-414 | embeds, writes both layouts and marks; stopped anywhere it leaves the points `UpsertAt` gives, by which the owner finds them (`WrittenIsFoundExactly`) |
| MemoryService.Memory.ApplyDeletes | services/memory/src/supportpilot_memory/memories.py:417-425 | deletes from both layouts and marks; stopped anywhere it leaves the state the store model says |
| MemoryService.Memory.RememberFact | services/memory/src/supportpilot_memory/memories.py:105-140 | one step of the store model and one audit row, denied exactly for a secret |
| MemoryService.Memory.ConfirmFact | services/memory/src/supportpilot_memory/memories.py:260-287 | one step of the store model; found exactly if visible and unconfirmed |
| MemoryService.Memory.SummariseFact | services/memory/src/supportpilot_memory/memories.py:331-369 | one step of the store model; found exactly if the source is visible |
| MemoryService.Memory.Walk | services/memory/src/supportpilot_memory/memories.py:225-233 | the recursive query ends with exactly the tree below the root within the visible rows |
| MemoryService.Memory.ForgetFact | services/memory/src/supportpilot_memory/memories.py:199-253 | one step of the store model and one audit row; found exactly if visible |
| MemoryService.Memory.CompleteForgetsNow | services/memory/src/supportpilot_memory/init.py:164-190 | forgets exactly the survivors, with exactly one audit row for each |
| MemoryService.Memory.AllPoints | services/memory/src/supportpilot_memory/qdrant_setup.py:51-65 | following the scroll offset to its end returns every point of the collection |
| MemoryService.Memory.FillCollection | services/memory/src/supportpilot_memory/qdrant_setup.py:112-131 | writes the points live records lack and overwrites none |
| MemoryService.Memory.RemoveStale | services/memory/src/supportpilot_memory/qdrant_setup.py:144-169 | removes exactly the points of records that are not live, and only while forgetting is complete |
| MemoryService.Memory.RunInit | services/memory/src/supportpilot_memory/init.py:200-223 | the database half, the missing points and the sweep together are the init step of the store model |
| MemoryService.Memory.Reconcile | services/memory/src/supportpilot_memory/qdrant_setup.py:172-205 | reports a problem if and only if the stores disagree there, and none exactly when they are clean |
| MemoryRecall.RankSorts | services/memory/src/supportpilot_memory/vectors.py:137-139 | ranking keeps the hits and orders them by falling score, then by id |
| MemoryRecall.RankedUnique | services/memory/src/supportpilot_memory/vectors.py:137-139 | there is one ranked order of the same hits |
| MemoryRecall.LayoutsDifferExactly | services/memory/src/supportpilot_memory/vectors.py:115-139 | after any run, with nothing pending for the organisation, both layouts rank the same candidates if and only if, of every candidate forgotten on the way, both collections were swept since or neither was |
| MemoryRecall.LayoutsReturnTheSame | services/memory/src/supportpilot_memory/vectors.py:115-139 | so they do after every run in which no sweep was interrupted, or a complete memory-init came after the last that was |
| MemoryRecall.RecallIgnoresLayout | services/memory/src/supportpilot_memory/memories.py:165-189 | in every run, with nothing pending, recall gives back the same records in both layouts |
| MemoryRecall.InterruptedSweepSplitsLayouts | services/memory/src/supportpilot_memory/qdrant_setup.py:162-168 | a run from the first memory-init, forgetting armed, a forget, disarmed, a sweep that stops after one layout, ends with nothing pending and the candidates different |
| MemoryRecall.ShadowedIsNeverFound | services/memory/src/supportpilot_memory/vectors.py:115-139 | a record whose confirmation never reached a collection is a candidate in no search of that collection, whatever happens later |
| MemoryRecall.FoundExactly | services/memory/src/supportpilot_memory/vectors.py:115-139 | after every run, whoever asks and in both layouts, a live confirmed record with nothing pending is a candidate if and only if its owner asks in its own organisation and the collection has not kept an unconfirmed point of it |
| MemoryRecall.ConfirmedIsFound | services/memory/src/supportpilot_memory/memories.py:260-287 | a memory its owner confirms without a fault is a candidate of its owner in both layouts, from any state |
| MemoryRecall.RememberedIsFoundExactly | services/memory/src/supportpilot_memory/memories.py:105-140 | a memory remembered without a fault is a candidate at once if and only if the deployment confirms by itself |
| MemoryRecall.SummaryIsFoundExactly | services/memory/src/supportpilot_memory/memories.py:331-369 | a summary is a candidate if and only if what it sums up was confirmed |
| MemoryRecall.ForgottenIsNotFound | services/memory/src/supportpilot_memory/memories.py:199-253 | after any run that never armed primary-only forgetting, a memory forgotten without a fault and everything derived from it is a candidate of nobody, in no layout and no organisation |
| MemoryRecall.CursorCovers | services/memory/src/supportpilot_memory/memories.py:157-191 | from any cursor a caller sends, following it reads back the rest of the first thirty candidates, in at most the pages left |
| MemoryRecall.RecallPagesAreExact | services/memory/src/supportpilot_memory/memories.py:157-191 | from the start of one ranked answer: exactly those of the first thirty candidates that are the caller's, confirmed and not forgotten, no record twice, in rank order, in at most three pages of at most ten |
| MemoryRecall.RecallIsComplete | services/memory/src/supportpilot_memory/memories.py:143-191 | after every run, with nothing pending and at most thirty candidates, following the cursor gives a caller exactly its own confirmed memories that are not forgotten, less those whose failed confirmation the searched collection has kept |
| Broker.SplitJoin | services/broker/src/delegation_broker/tokens.py:123-156 | joining words with spaces and splitting the text returns the same words |
| Broker.ScopeClaimRoundTrip | services/broker/src/delegation_broker/tokens.py:123-156 | a set of scopes survives the claim it is written into if and only if each name is one whitespace-free word |
| Broker.Depth | services/broker/src/delegation_broker/exchange.py:140-145 | the loop counts exactly the actors of the nest |
| Broker.PrecheckExactly | services/broker/src/delegation_broker/exchange.py:68-89 | a request gets past the checks made before its token exactly when grant type, client, token fields, audience and scopes are all acceptable |
| Broker.UserExchangeExactly | services/broker/src/delegation_broker/exchange.py:91-100 | a user's token is exchanged exactly when it is genuine, unexpired and the scopes fit the ceiling or, with the switch armed, everything delegable |
| Broker.DelegatedExchangeExactly | services/broker/src/delegation_broker/exchange.py:102-111 | a delegated token is exchanged exactly when this broker minted it, it is unexpired, its chain is not full and the scopes fit the token or, with the switch armed, the ceiling |
| Broker.UserGrant | services/broker/src/delegation_broker/exchange.py:92-119 | what is granted for a user's token: exactly the requested scopes, delegable, the user as subject, the client as the only actor, and the earlier of five minutes and the user's expiry |
| Broker.DelegatedGrant | services/broker/src/delegation_broker/exchange.py:102-119 | what is granted for a delegated token: the same subject, the client in front of the old actors, at most four of them, and an expiry never past the old one |
| Broker.ChainOnlyNarrows | services/broker/src/delegation_broker/exchange.py:91-119 | along every chain with the switches secure, begun at either site: scopes only shrink and stay in the first profile's ceiling, the subject stays, expiries never grow nor pass the user's, lifetimes are between 1 and 300 seconds, the actors are the clients newest first, and there are at most four tokens |
| Broker.ResolveUnambiguous | services/broker/src/delegation_broker/operations.py:39-51 | no method and path match two rows of the table, so the first match is the only one |
| Broker.GatewayMintsExactly | services/broker/src/delegation_broker/main.py:178-216 | the gateway mints if and only if the call matches a row whose scope the profile covers, the user verifies and has not expired, and passthrough is off; it crashes exactly when only the expiry fails |
| Broker.GatewayRepliesExactly | services/broker/src/delegation_broker/main.py:178-220 | each answer of the gateway if and only if a condition on the call: the two 404s, 401, 403, the crash, 413 by either route exactly for a body too long, forwarded, and passed on with the user's own token |
| Broker.ResolvesExactly | services/broker/src/delegation_broker/operations.py:24-51 | a call resolves to a row of the table if and only if it has the row's method in any case and a path of its template, the parameter being one to sixty-four letters, digits or hyphens |
| Broker.LeewayCrashIsA400 | services/broker/src/delegation_broker/exchange.py:112-119 | one user token shown at one moment at both sites: the gateway crashes if and only if the exchange answers 400 for an expired token, which is within the thirty seconds of leeway and before the mint's clock |
| Broker.GatewayGrant | services/broker/src/delegation_broker/main.py:204-216 | what the gateway mints: one minute or the user's expiry if earlier, the profile as the only actor, a non-empty scope inside the ceiling and delegable |
| BrokerRuns.LoadProfiles | services/broker/src/delegation_broker/trusted.py:79-113 | starts if and only if there is a row and every row is well named, new, known, delegable and has a credential; then each profile has its own row's ceiling and its own credential; otherwise the error is that of the first bad row |
| BrokerRuns.RowErrorExactly | services/broker/src/delegation_broker/trusted.py:79-113 | each error of a row if and only if a condition on it, in the order they are checked, naming exactly the scopes at fault |
| BrokerRuns.NameMatchesExactly | services/broker/src/delegation_broker/trusted.py:79-113 | a profile name is one to sixty-three small letters, digits and hyphens, a letter first, and perhaps a final newline |
| BrokerRuns.EveryTokenIsLawful | services/broker/src/delegation_broker/exchange.py:83-119 | in every run, under any switch settings, every token minted at either site has a non-empty delegable scope set, a lifetime of at most five minutes and at most four actors |
| BrokerRuns.MintedExactly | services/broker/src/delegation_broker/exchange.py:83-119 | after every run the tokens the broker takes for its own are exactly those given out by a granted exchange or made for a forwarded call |
| BrokerRuns.SecureRunsStayWithin | services/broker/src/delegation_broker/exchange.py:94-108 | in every run with the exchange switches secure, every token stays in the ceiling of the profile at the start of its chain |
| BrokerRuns.GatewayClaimIsExact | services/broker/src/delegation_broker/main.py:205-214 | a gateway token reads back as the scope the operation needs if and only if that scope is one word |
| ActionDocument.InliningKeepsMeaning | scripts/export_openapi.py:109-196 | for documents whose references name component schemas and whose siblings are annotations, every path of every operation and of every schema kept shows the same before and after inlining and popping, titles and descriptions aside |
| ActionDocument.NoReferenceDangles | scripts/export_openapi.py:193-195 | every object anywhere in the compiled paths or schemas whose reference named a schema names one that is still there |
| ActionDocument.AlikeShowTheSame | scripts/export_openapi.py:138-170 | two values related by inlining, copying or rewriting inside show the same at every path, through recursive schemas too |
| ActionDocument.PopShowsTheSame | scripts/export_openapi.py:193-195 | dropping schemas nothing mentions changes nothing a path shows |
| ActionDocument.ComponentIsLastSegment | scripts/export_openapi.py:161 | for a component reference, the text after its last slash is the component's name |
| ActionDocument.EnumInliningIsExact | scripts/export_openapi.py:159-168 | inlining one enum keeps what every path shows if and only if nothing beside the reference repeats a keyword of the enum |
| ActionDocument.BodyInliningIsExact | scripts/export_openapi.py:185-191 | copying one body schema keeps what every path shows if and only if only notes stood beside the reference |
| ActionDocument.WalkShowsEveryEnum | scripts/export_openapi.py:138-170 | after the walk no object anywhere refers to a simple enum if and only if every enum reference was the value of a key: none an item of a list, and none left by what replaced a reference |
| ActionDocument.CompiledPropertiesShowEveryEnum | scripts/export_openapi.py:147-195 | the same condition decides it for the properties of every schema of the finished document |
| ActionDocument.BodyShowsItsFields | scripts/export_openapi.py:178-191 | after body inlining no request body refers to an object schema, and only the schema of the media type changed |
| ActionDocument.BodiesAreInPlace | scripts/export_openapi.py:172-191 | in a compiled document no media type of any request body refers to an object schema; each that did holds that schema itself, walked, and nothing else about it changed |
| ActionDocument.CompiledPathsShowEveryEnum | scripts/export_openapi.py:138-191 | a path of a compiled document refers to no simple enum if and only if every enum reference in it, and in each schema put in place of a body, was the value of a key |
| ActionDocument.EnumStandsInPlace | scripts/export_openapi.py:148-168 | either form of a reference to a simple enum becomes exactly the enum without its title plus what stood beside the reference, which wins |
| ActionDocument.OnlyPropertiesAreWalked | scripts/export_openapi.py:170-176 | of a compiled schema nothing but its properties changed, each property for itself |
| ActionDocument.PopsExactly | scripts/export_openapi.py:193-195 | what is popped is a simple enum whose reference is written nowhere in any part of the document left, and a simple enum kept was written somewhere before popping |
| ActionDocument.ListReferenceStaysHidden | scripts/export_openapi.py:140-143 | an item of a list that refers to an enum, in either form, still refers to the same one after the walk |
| ActionDocument.Spec.PopUnmentioned | scripts/export_openapi.py:193-195 | pops only simple enums the document no longer mentions, and keeps only those mentioned |
| ActionDocument.Spec.InlineEnumRefs | scripts/export_openapi.py:109-196 | the three loops and the popping leave a document compiled from the old one, which by `BodiesAreInPlace`, `CompiledPathsShowEveryEnum` and `InliningKeepsMeaning` has every body in place and means the same |
| ProfileDocuments.ProfileDocument.CutPaths | scripts/export_openapi.py:358-369 | stops exactly if some operation is in no row of the broker's table, and otherwise leaves exactly the entries the ceiling keeps |
| ProfileDocuments.ProfileDocument.Prune | scripts/export_openapi.py:382-391 | terminates with the greatest set of schemas each mentioned by the root or by one of them |
| ProfileDocuments.ProjectDocument | scripts/export_openapi.py:349-379 | one profile's document is the main one with its paths cut, its address set, and its schemas pruned, or an error |
| ProfileDocuments.EntryStaysExactly | scripts/export_openapi.py:358-369 | an entry of a path stays if and only if it is no operation, or its id is that of a row whose scope the ceiling holds |
| ProfileDocuments.PathStaysExactly | scripts/export_openapi.py:368-369 | a path goes if and only if it has no entry left |
| ProfileDocuments.PlacedExactly | scripts/export_openapi.py:362-366 | the script stops at an operation if and only if its id is that of no row |
| ProfileDocuments.AddressedToTheProfile | scripts/export_openapi.py:370-376 | the one server of a profile's document is the broker's own path for that profile, the title names the profile, and no other field of the root changes |
| ProfileDocuments.PruneLeavesNoDangling | scripts/export_openapi.py:382-391 | a schema that was there and is mentioned in the pruned document is still there |
| ProfileDocuments.AnchoredSurvives | scripts/export_openapi.py:382-391 | everything on a chain of mentions from the root, or from a cycle of mentions, survives |
| ProfileDocuments.SurvivesPruningExactly | scripts/export_openapi.py:382-391 | a schema survives if and only if such a chain leads to it, so what only a cycle holds up is kept |
| ProfileDocuments.PruneKeepsMeaning | scripts/export_openapi.py:382-391 | every path of every operation and schema left shows the same as before pruning |
| ProfileDocuments.SurvivesExactly | scripts/export_openapi.py:364-368 | a documented operation survives if and only if its action has a scope in the ceiling |
| ProfileDocuments.DocumentAgreesWithGateway | scripts/export_openapi.py:349-369 | for a profile the broker loaded, an operation survives in its document if and only if the gateway mints for a matching call of an unexpired user with passthrough off |
| ProfileDocuments.EntriesMeanTheSame | scripts/export_openapi.py:349-391 | every entry of a profile's document was an entry of the main one and shows the same at every path, after cutting and pruning |
| Rules.NoUpdateForgesAnApproval | database/memory/migrations/0008_rule_retirement.sql:31-83 | whatever mix of policies lets an update through, one the trigger accepts keeps the duties separate, moves the state forward, keeps an earlier approval and never activates without one |
| Rules.CallKeeps | services/memory/src/supportpilot_memory/rules.py:70-148 | each call, self-activation armed or not, keeps that every rule somebody decided was decided by an approver other than its proposer naming the hash of its text |
| Rules.EveryRunKeeps | services/memory/src/supportpilot_memory/rules.py:70-240 | so does every run of calls and recoveries |
| Rules.EveryRuleWasApproved | services/memory/src/supportpilot_memory/rules.py:70-240 | after every run with self-activation off, each rule past a proposal, retired ones too, was so decided |
| Rules.SucceededMeansChanged | services/memory/src/supportpilot_memory/rules.py:85-148 | a call's audit row says succeeded if and only if the rule table changed, and no other rule is touched |
| Rules.TrailTellsTheTruth | services/memory/src/supportpilot_memory/rules.py:95-148 | in every run of calls and recoveries, the audit rows of a step say of a rule that its change succeeded if and only if the step changed it, and the one row of a call names its rule and its caller |
| Rules.DecisionTakesEffectExactly | services/memory/src/supportpilot_memory/rules.py:95-148 | a decision takes effect if and only if an approver of the organisation other than the proposer names the hash of a rule still proposed |
| Rules.DecisionRefusedExactly | services/memory/src/supportpilot_memory/rules.py:95-148 | every answer of a decision, with its audit row: no approver, nothing visible to decide, another hash, one's own proposal, and otherwise the state asked for under the decider's name |
| Rules.EveryRuleHasItsProposer | services/memory/src/supportpilot_memory/rules.py:70-92 | after every run each rule in the table has the step that proposed it, by the caller and organisation, and for the text, that it names; before that step it was not there |
| Rules.ProposerNeverDecides | services/memory/src/supportpilot_memory/rules.py:95-148 | in every run, with self-activation armed or not, no decision made by the subject of the call that proposed a rule ever changes anything |
| Rules.ProposalStartsExactly | services/memory/src/supportpilot_memory/rules.py:70-92 | a rule begins proposed, or active with nobody's approval exactly while self-activation is armed, under the hash of its text, and its audit row says which |
| Rules.ProposalsAreSeenExactly | database/memory/migrations/0004_rules.sql:70-79 | a proposal is seen only within its organisation, by its proposer and by approvers; an active rule by everybody there |
| Rules.RetiredExactly | services/memory/src/supportpilot_memory/rules.py:204-240 | after every run a rule is retired if and only if at some step an approver of its organisation withdrew it while it was active, or a recovery found it active and undecided; and it names which |
| Rules.RulesOnlyMoveForward | services/memory/src/supportpilot_memory/rules.py:70-240 | along every run, recoveries included and self-activation or not, rules stay, states only move forward, and texts and approvals stay |
| Rules.RecoveryFindsNothing | database/memory/migrations/0008_rule_retirement.sql:109-131 | with self-activation off the recovery has nothing to retire |
| Rules.RecoveryLeavesOnlyApproved | database/memory/migrations/0008_rule_retirement.sql:109-131 | after any run, self-activation armed or not, the recovery leaves active only independently approved rules and touches none that somebody decided |
| Rules.RuleBook.ProposeRule | services/memory/src/supportpilot_memory/rules.py:70-92 | one insert under the caller's own name, one audit row, active only under the setting; `EveryRuleHasItsProposer` and `ProposalStartsExactly` say what that is over runs |
| Rules.RuleBook.Update | database/memory/migrations/0008_rule_retirement.sql:37-83 | inside a savepoint an update either takes effect or raises and leaves the row |
| Rules.RuleBook.DecideRule | services/memory/src/supportpilot_memory/rules.py:95-148 | every branch, the refused self-approval included, leaves its one audit row and the table the step function says |
| Rules.RuleBook.RetireRule | services/memory/src/supportpilot_memory/rules.py:204-240 | every branch leaves its one audit row and the table the step function says |
| Rules.RuleBook.RetireUnapproved | database/memory/migrations/0008_rule_retirement.sql:109-131 | is the recovery step: retires exactly the active rules nobody approved, with exactly its one audit row for each |
| Context.OrderIsStable | services/memory/src/supportpilot_memory/context.py:200-220 | ordering by relevance permutes the memories, sorts them by rank, and leaves ties in their order |
| Context.StoreDecidesOrder | services/memory/src/supportpilot_memory/context.py:200-220 | what an answer of the store names earlier stands earlier in the block, and what it does not name stands after everything it does |
| Context.StoreOnlyOrders | services/memory/src/supportpilot_memory/context.py:200-220 | whatever the vector store answers, or if it is down, the same items go in |
| Context.HistoryIsReauthorised | services/memory/src/supportpilot_memory/context.py:152-166 | with revalidation on, every included tool or assistant turn was produced under roles still held; the outlived flag is exact; an omitted item carries no content and lost some role |
| Context.BlockSaysWhatIsLogged | services/memory/src/supportpilot_memory/context.py:116-197 | the whole block shows exactly the contents of the items logged as included and, in place of each omitted turn, the roles that were lost, each once and in order, whatever the settings |
| Context.BlockIsLabelledExactly | services/memory/src/supportpilot_memory/context.py:116-197 | the warning stands in the block, and each content is labelled, if and only if provenance is shown; the notice about ordering if and only if the store was down with something to order |
| Context.Assemble | services/memory/src/supportpilot_memory/context.py:116-197 | the block's lines and items are exactly those of the rules, the ordered memories and the turns, and included plus omitted is the number of items |
| Context.TurnPart | services/memory/src/supportpilot_memory/context.py:150-176 | the history loop counts exactly what it leaves out |
| History.MaxOfNumbered | services/memory/src/supportpilot_memory/history.py:116-120 | in a session built by appending, the highest number is the number of turns |
| History.TurnsAreTheAppends | services/memory/src/supportpilot_memory/history.py:93-136 | after every run a session holds exactly what was appended, in order, numbered from one, each turn with the roles of its own caller |
| History.PageIsSlice | services/memory/src/supportpilot_memory/history.py:160-177 | for any cursor a caller sends, a page is the slice after it, never longer than the limit, with a next cursor exactly if more remains |
| History.PagingIsExact | services/memory/src/supportpilot_memory/history.py:139-181 | following the cursor with any limits while turns are appended reads exactly a prefix, nothing skipped or repeated, and all of it when no cursor comes back |
| History.InterleavedPagingIsExact | services/memory/src/supportpilot_memory/history.py:93-181 | in every interleaving of appends and page requests the reader has read exactly the beginning of the session, and all of it as of the last page if that names no next one |
| History.Store.AppendTurn | services/memory/src/supportpilot_memory/history.py:93-136 | appends one turn numbered one past the last, with the caller's roles, for the owner only, and leaves one audit row |
| History.Store.ReadTurns | services/memory/src/supportpilot_memory/history.py:139-181 | answers exactly if the session is visible, with the page for the cursor, and leaves one audit row saying as whom |
| History.Store.Rows | services/memory/src/supportpilot_memory/history.py:160-165 | the first rows after the cursor, in order, up to the limit |
| PolicyBundle.VariantsDiffer | services/range/src/range_service/policy_bundle.py:61-122 | whatever the repository policy says, no two of the five variants are one text, and none is the policy |
| PolicyBundle.NeverOverlap | services/range/src/range_service/policy_bundle.py:61-122 | an arm and a deny arm never overlap, wherever either occurs in any text |
| PolicyBundle.CutIsExact | services/range/src/range_service/policy_bundle.py:148-180 | an altered policy exists if and only if the repository's holds both the arm and the deny arm, and then it is that policy with exactly one line taken out of the arm and the deny arm taken out: never half of itself |
| PolicyBundle.ConflictIsAppended | services/range/src/range_service/policy_bundle.py:148-180 | the conflicting rule is the whole policy with the rule after it |
| PolicyBundle.PackageIsMovedExactly | services/range/src/range_service/policy_bundle.py:148-180 | the undefined variant exists if and only if the policy declares its package, and moves the first declaration only |
| PolicyBundle.HonestExactlyWhenUntied | services/range/src/range_service/policy_bundle.py:204-227 | in a run of writes, erasures, starts and stops, a file no newer than the last start is always what that start read, if and only if no write of something new shares the instant of the last start |
| PolicyBundle.ProbeIsTruthfulExactly | services/range/src/range_service/policy_bundle.py:230-249 | at every moment of a run every answer of correct or armed is about the text OPA read, if and only if no such write happens |
| PolicyBundle.ProbesExactly | services/range/src/range_service/policy_bundle.py:230-249 | each answer of the probe if and only if a condition on the file, the policy, the last start and whether the runtime answers |
| PolicyBundle.LastStartDecides | services/range/src/range_service/policy_bundle.py:204-227 | in every run OPA holds what the file held at the last step that really started it |
| PolicyBundle.AdvancingClockIsUntied | services/range/src/range_service/policy_bundle.py:227 | a clock that advances with each step allows no such write |
| PolicyBundle.AtMostOneArmed | services/range/src/range_service/policy_bundle.py:230-249 | no two variants read armed at once |
| PolicyBundle.OnlyThatOne | services/range/src/range_service/policy_bundle.py:230-249 | while one variant reads armed, no other reads armed or correct |
| PolicyBundle.Lab.Arm | services/range/src/range_service/registry.py:881-883 | a completed arm makes that variant read armed and every other neither armed nor correct; a transform that does not fit changes nothing |
| PolicyBundle.Lab.Restore | services/range/src/range_service/registry.py:886-888 | a completed restore makes every variant read correct with OPA running the policy; a failed one still leaves the probe honest |
| Reset.WrongIsExact | services/range/src/range_service/registry.py:284-307 | the ids reported are exactly those first probed wrong, each once, in registration order |
| Reset.NormalReturnMeansFine | services/range/src/range_service/registry.py:309-320 | a sweep returns normally if and only if every second probe is correct or absent and no restore raised |
| Reset.Range.RestoreAll | services/range/src/range_service/registry.py:291-307 | restore is called exactly once for each wrong mutation and for no other, and no failure ends the sweep |
| Reset.Range.Sweep | services/range/src/range_service/registry.py:273-320 | the answer, the error naming what is still wrong, and the one recorded event, for any probes and restores |
| Reset.StoppedIsProbedExactly | services/range/src/range_service/registry.py:855-860 | the stopped container reads armed, the running one correct, and an unreachable runtime unknown, each if and only if |
| Reset.FamilyEndsCorrect | services/range/src/range_service/registry.py:863-960 | if no restore fails, restoring whichever of the six controls sharing one bundle and one container probe wrong leaves all six correct, from any honest state |
| Reset.FamilySweepFailsNothing | services/range/src/range_service/registry.py:309-320 | so the second probes of the family leave nothing to report |
| Reset.SweepFamily | services/range/src/range_service/registry.py:273-320 | the sweep of the family answers normally, naming exactly the controls first probed wrong, and each then probes correct |

## Left out

- HTTP routing, request schemas, JWT signature checking, key fetching and caching, logging, TLS, SQL text and Rego: foreign code or plumbing.
- Interleaved requests inside one apply phase, one rule decision or one append: the code makes no promise there, so requests to the memory service are serial. Workers are interleaved step by step.
- ActionProtocol.Enabled: an approver's load and decision are one step, and a claim and its row read are one step, as in their transactions; a race between two approvers is the database's unique decision row.
- ActionProtocol.Worker.Run: other workers act between its turns; that they may act inside one too is what the lemmas about runs cover, not the class.
- ActionProtocol.EffectsAreApproved: does not model approval expiry between the check and the provider call, because the worker does not check it again.
- CanonicalJson.CanonicalIffSameMeaning: payloads hold null, booleans, integers, strings, arrays and string-keyed objects; floats, non-string keys and lone surrogates are not modelled, and `True == 1` of Python is not used.
- MemoryResults.InitRepairs: needs at least one tenant; with none, setup is skipped and nothing is repaired.
- MemoryStore.NextKeeps: an outbox row is its record, operation and pending mark; its own organisation column and the order of rows are not modelled, since nothing reads them.
- MemoryRecall.RecallPagesAreExact: the candidates are the same for each page; scores are arbitrary inputs and embeddings are not modelled.
- Broker.GatewayMintsExactly: the client's credentials are already checked or not (a client is a registered profile), and forwarding to the API is not modelled.
- Broker settings file parsing (trusted.py:116-134): one expression, so each request simply comes with its three switches.
- Broker.ResolveCall: the method is upper-cased as ASCII; routes only pass GET and POST.
- ActionDocument.InliningKeepsMeaning: a name is mentioned when some text or key is its reference, which is what the search of the JSON text finds for names without characters JSON escapes; documents of a shape the script raises on are left unchanged by the model; key order is not modelled, nor the count of inlined references.
- ActionDocument.CompiledPathsShowEveryEnum: assumes that no schema is at once a simple enum and of type object, which FastAPI never writes; such a one would be put in place of a body as an object.
- ActionDocument.InliningKeepsMeaning: beside a reference to an object schema only a title or description is an annotation, because body inlining drops everything else.
- ProfileDocuments.ProjectDocument: rendering, file writing and the audit rules of the main document are not modelled.
- Rules.CallKeeps: timestamps (`decided_at`, `retired_at`) and the review listing are not modelled.
- Context.Assemble: the three bounded queries and the text of the labels are inputs or left out; a line is what it says.
- History.Store.AppendTurn: the secret filter is a function given to the call; its regular expressions are not modelled.
- PolicyBundle.CutIsExact: `arm.replace(condition, "")` is written as taking one line out of the arm's lines, since the condition is one whole line and stands there once.
- PolicyBundle.ProbeIsTruthfulExactly: OPA reads the bundle in the instant it starts, and the repository policy stays the same during a run.
- Reset.Range.Sweep: probes and restores are what they answered; a failing evidence write is not modelled.
- The approval portal, the Range's pages, probes of other controls, the suites, Markdown rendering and secret redaction: interface, fixed data or regular expressions.

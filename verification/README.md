# Verification of the platform's protocols

Dafny models of the parts of the platform whose correctness does not show in any one function, with proofs of what the
code and its comments promise about them. `dafny verify dfyconfig.toml` checks the whole project. Member names below are
Dafny's; paths are the repository's.

## What is modelled

**The AI-execution lease protocol.** `ExecutionBoard` gives each SQL transaction of the Postgres adapter as a function on
the four tables; the class `PostgresExecutions.ExecutionStore` performs the same transactions on its own fields, and each
method is proved equal to its function. `ExecutionProtocol` interleaves the transactions: dispatchers, workers, recovery,
admission and human cancellation as processes that may crash between any two steps, over a broker that keeps every message
and may deliver it any number of times to any number of workers. A list of actions is an interleaving, and every theorem
about runs is about every list. `ExecutionWorker` and `ExecutionDispatcher` are the imperative worker and dispatcher; the
worker's calls on the store are proved to be actions of one process of the protocol.

**The audit hash chain.** Bytes, decimal lengths, hexadecimal and UUID text are concrete; the hash, the keyed tag and the
clock's text format are parameters. No theorem takes SHA-256 (section 6.2 of FIPS 180-4) to be injective: tamper evidence
says that two accepted chains agree *or* exhibit two different pre-images with one hash value. `AuditStore` adds the rows,
the sequence numbers with their gaps, and any number of writers.

**The Creator pipeline.** `PipelineProtocol` interleaves advances, approvals and retries, each of which reads a copy, works
on it and writes it back by compare-and-swap on the version. `PipelineService` has the service, its store and the worker's
entry point as classes, each method tied to the actions it performs. A pipeline fetched from the store is a private copy in
the source (every read scans a fresh one), so the methods reassign a local value field by field.

**Refresh tokens and bounded tables.** `RefreshProtocol` splits a refresh into its lookup, its marking write and its grant.
`BoundedTables` has the "keep the n oldest" selection over an arbitrary iteration order that the token table and the rate
limiter both evict by; `RefreshStore` and `RateLimit` are the two tables.

**Keyset pagination, throttle, backoff.** `KnowledgeListing` and `KnowledgeCursor` follow a client through the pages of a
listing that changes under it; `Throttle` compacts its slice in place; `RetryPolicy` has the doubling loop in 64-bit
arithmetic with wrap-around.

## What turned out false, and exactly when it holds

* *A pending execution is retryable.* `Claim` keeps the previous attempt's classification, and recovery obeys whatever it
  finds. A message delivered to two workers at once can leave an execution pending with a non-retryable verdict, and a later
  worker that merely vanishes then costs it the rest of its attempts (`DuplicateDeliveryCostsAnAttempt`). In any reachable
  state exactly one kind of step does this: a worker's retrying `Settle` whose token holds while the row carries a refusal
  (`TaintStepIff`; recovery never does). Over runs it happens if and only if, between one worker's retryable classification
  and its committed retry, another worker's refusal at the same generation was the last word (`TaintIff`). Runs in which no
  two workers act on one message at once never get there (`ExclusiveRunsStayClean`).
* *Rotation exchanges a token once and keeps one live token per family.* The lookup and the marking write of a refresh are
  two transactions. Each promise is kept, at every moment of a run and however the refreshes then under way finish, if and
  only if no refresh of a family starts while another is under way (`PromisesKeptIffSerial`).
* *Reuse ends the family.* It does, on every continuation of that kind, if and only if no refresh of the family was under way
  when the used token was presented (`ReuseEndsTheFamilyIff`).
* *The cursor range is what the database can store.* Its upper bound, 2534023007999999999 ns, lies in April 2050. A
  document's cursor reads back exactly when its instant lies in the accepted range (`CursorRoundTripIff`), and a walk can go
  past a page exactly when that page's last document does (`WalkContinuesIff`).
* *The delay is the capped exponential.* Doubling wraps around in 64 bits, and a delay can come out negative
  (`DelayCanWrap`); `DelayIsIdealIff` gives the exact condition on base and cap under which no attempt notices.
* *A retry's generation tracks its execution's lease generation* (`internal/execution/execution.go:276-278`). `ReclaimStale`
  moves only the execution's: a run of three steps leaves them apart (`TakeoverLeavesRetryBehind`). In every reachable state
  an outstanding retry carries its execution's generation if and only if the execution is not running under a takeover
  (`RetryTracksLeaseIff`). The takeover looks for a *pending* retry, and none is ever there, so its token names no retry
  (`TakeoversNameNoRetry`).
* *`VerifyHashChain` detects tampering.* It accepts every non-empty prefix of a chain (`PrefixIsVerified`); what pins a chain
  is the verifier together with a remembered last hash, and then exactly the bound fields (`AcceptedIffAgreeing`). Row ids,
  parents, trace and span ids are not bound, nor are an event's actor, target and type fields in the root.

* *A log has one root.* Finding the log empty and inserting its root are two transactions; a second process's root in between
  leaves a log that is never verified short of a collision (`AuditStore.Store.Open`).

## Model

The rows of the store, service and worker classes tie the imperative code to the protocol functions; the results are the
rows about runs, chains and walks.

| member | source | states |
|---|---|---|
| ExecutionSystem.StepKeepsInvariant | infrastructure/postgres/executions.go:203-695 | every action of every process, in any state satisfying the system invariant, keeps it: well-formed board, issued tokens matching their rows, holders and messages carrying issued tokens |
| ExecutionSystem.Reachable | infrastructure/postgres/executions.go:69-695 | the invariant holds after every interleaving; with it, a token or message that still holds carries its row's attempt and budget |
| ExecutionEvolution.StepEvolves | infrastructure/postgres/executions.go:203-695 | no action rewrites identity, lowers a generation or attempt, revives a lease at its generation, or touches a terminal execution's row, retries, dead letters or log |
| ExecutionRuns.GenerationMoves | infrastructure/postgres/executions.go:406-480 | the lease generation goes up by one exactly on a committed claim or reclaim, the attempt exactly on a committed claim, and neither changes otherwise |
| ExecutionRuns.StaleWritesNothing | infrastructure/postgres/executions.go:487-655 | a heartbeat, classification or finalisation whose token no longer matches leaves the whole board unchanged |
| ExecutionRuns.OlderTokensAreFencedOut | infrastructure/postgres/executions.go:413-423 | once a newer generation is handed out, a token of any older one, presented by anyone at any later time, changes nothing |
| ExecutionRuns.OneFinalisationPerGeneration | infrastructure/postgres/executions.go:538-655 | after one of Complete, Reschedule or FailAndDLQ commits at a generation, no write at that generation ever commits again, duplicates included |
| ExecutionRuns.TerminalIsAbsorbing | infrastructure/postgres/executions.go:203-247 | a completed, failed or cancelled execution never changes again: row, retries, dead letters, dispatch entries |
| ExecutionRuns.AttemptsCountClaims | infrastructure/postgres/executions.go:413-423 | the row's attempt is the number of committed claims of the run, and at most the budget |
| ExecutionOutcomes.OutcomeConservation | infrastructure/postgres/executions.go:538-655 | lease columns set exactly while running; retries numbered 1..n with n fixed by status and attempt; all but the last processed, failed and workerless; the last tells the status; dead letter exactly when failed; retry generations bounded |
| ExecutionOutcomes.StatusChangeBurnsFuel | internal/execution/dispatcher.go:142-147 | a well-founded measure drops on every status change and never rises |
| ExecutionOutcomes.StatusChangesAreBounded | internal/execution/worker.go:155-161 | over any run an execution changes status at most twice its attempt budget times |
| ExecutionOutcomes.RetriesAreClaimedOnce | infrastructure/postgres/executions.go:427-436 | two committed claims of a run never take the same retry row |
| ExecutionOutcomes.EntriesCarryTheirClaim | infrastructure/postgres/executions.go:662-695 | every dispatch entry of a reachable board has exactly the worker and generation its retry's one claim assigned |
| ExecutionVerdicts.TaintStepIff | internal/execution/worker.go:148-166 | in any reachable state a step turns a pending row's verdict non-retryable exactly if it is a retrying Settle, its token held, attempts left and id free, over a row that carries a refusal; recovery and every other action never do |
| ExecutionVerdicts.TaintIff | internal/execution/worker.go:148-166 | a run reaches a pending execution with a non-retryable verdict if and only if a worker's retryable classification and its committed retry enclose another worker's refusal at the same generation that stays the last word |
| ExecutionVerdicts.RecoveryKnowsAt | internal/execution/dispatcher.go:132-148 | in every reachable state recovery between its two writes holds the flag its row carries: no worker shares its generation |
| ExecutionVerdicts.ExclusiveRunsStayClean | internal/execution/worker.go:148-166 | with at most one worker acting per claim, no pending execution carries a non-retryable verdict |
| ExecutionVerdicts.RecoveryDeadLettersForCause | internal/execution/dispatcher.go:132-148 | in such runs recovery dead-letters only when attempts are used up or this attempt's worker persisted a non-retryable error |
| ExecutionDuplicates.DuplicateDeliveryCostsAnAttempt | internal/execution/worker.go:148-166 | a concrete run where duplicate delivery taints a pending row and a vanished worker's next attempt is dead-lettered with attempts to spare |
| ExecutionGenerations.RetryTracksLeaseIff | infrastructure/postgres/executions.go:427-480 | in every reachable state an outstanding retry carries its execution's lease generation exactly if the execution is not running under a takeover, and never a newer one |
| ExecutionGenerations.TakeoversNameNoRetry | infrastructure/postgres/executions.go:461-480 | in every reachable state the token of a takeover names no retry |
| ExecutionGenerations.TakeoverLeavesRetryBehind | infrastructure/postgres/executions.go:454-480 | a concrete run whose retry stays at generation 1 while its execution is at 2 |
| ExecutionDomain.Classify | internal/execution/execution.go:219-244 | each code stands exactly for its sentinel with none probed before it, and a retry is allowed exactly for deadlines, limits, expired leases and outages that are neither vanished rows nor cancellations |
| ExecutionDomain.MessageRoundTrip | internal/execution/worker.go:206-222 | the token a worker rebuilds from the published message is the claim's, in every field a fenced write uses |
| ExecutionEffects.ClaimsIff | infrastructure/postgres/executions.go:406-446 | on every reachable board a claim commits exactly if the execution is pending with its gate passed: budget and retry row are never wanting; the lease lasts exactly its term, the one outstanding retry is taken, nothing else moves, and the token says all of it |
| ExecutionEffects.ReclaimsIff | infrastructure/postgres/executions.go:454-480 | a takeover commits exactly on a running row past its expiry, moves only owner, generation and expiry, lasts exactly its term, and carries the kept classification and no retry |
| ExecutionEffects.HeartbeatsIff | infrastructure/postgres/executions.go:487-505 | accepted exactly from the owner at its generation; the lease then lasts exactly a full term |
| ExecutionEffects.ClassifiesIff | infrastructure/postgres/executions.go:511-533 | accepted exactly from the owner; code, flag and detail are recorded and nothing else moves |
| ExecutionEffects.CompletesIff | infrastructure/postgres/executions.go:538-568 | on every reachable board accepted exactly from the owner; result and instant recorded, lease freed, its one outstanding retry succeeds, every other row untouched |
| ExecutionEffects.FailsIff | infrastructure/postgres/executions.go:573-612 | accepted exactly from the owner; reason and instant recorded, its retry fails, one dead letter with attempt, code, detail and snapshot |
| ExecutionEffects.ReschedulesIff | infrastructure/postgres/executions.go:618-655 | accepted exactly from the owner with a free id; its retry fails, the next one waits pending behind the same gate as the execution |
| ExecutionEffects.CancelsIff | infrastructure/postgres/executions.go:203-247 | succeeds exactly for the workspace's executions; an unfinished one is cancelled with its retry and its classification wiped, a finished one stays |
| ExecutionEffects.RecordsIff | infrastructure/postgres/executions.go:662-695 | a dispatch is logged exactly if the retry is in flight under this worker and generation; success marks a claimed retry dispatched |
| ExecutionAdmission.AdmitsIff | internal/execution/service.go:38-66 | a fresh request is admitted exactly if its employee is of the workspace with room under its cap; the row is what was asked for, three attempts by default, with one pending retry; the refusal says which failed |
| ExecutionAdmission.InvalidIsRefused | internal/execution/service.go:38-66 | a request without workspace or employee changes nothing |
| ExecutionAdmission.CapacityHolds | infrastructure/postgres/executions.go:69-198 | no reachable state has more executions of an employee neither completed, failed nor cancelled than its cap |
| ExecutionAdmission.KeyNamesOneExecution | infrastructure/postgres/executions.go:69-198 | in every reachable state a workspace and key name at most one execution |
| ExecutionAdmission.ReplayIsExact | internal/execution/service.go:38-117 | a keyed repeat leaves the board unchanged and returns the execution exactly when employee, task and budget match, else a conflict |
| ExecutionAdmission.Service.Admit | internal/execution/service.go:38-66 | validation, defaulting and the replay check around the store's transaction, as one specified transition |
| PostgresExecutions.ExecutionStore.AdmissionAdmit | infrastructure/postgres/executions.go:69-198 | replay lookup, employee, capacity and insert leave the tables and answer of the admission transition; unique indexes kept |
| PostgresExecutions.ExecutionStore.Cancel | infrastructure/postgres/executions.go:203-247 | cancels a runnable execution with its outstanding retry, is idempotent on terminal ones, reports a missing one |
| PostgresExecutions.ExecutionStore.Claim | infrastructure/postgres/executions.go:406-446 | commits exactly when due, within budget and joined by a pending retry; returns the new token |
| PostgresExecutions.ExecutionStore.ReclaimStale | infrastructure/postgres/executions.go:454-480 | takes over exactly an expired running lease, with the kept classification in the token |
| PostgresExecutions.ExecutionStore.Heartbeat | infrastructure/postgres/executions.go:487-505 | extends the expiry exactly while the token holds |
| PostgresExecutions.ExecutionStore.PersistError | infrastructure/postgres/executions.go:511-533 | writes the classification exactly while the token holds |
| PostgresExecutions.ExecutionStore.Complete | infrastructure/postgres/executions.go:538-568 | completes row and retry together exactly while the token holds |
| PostgresExecutions.ExecutionStore.FailAndDLQ | infrastructure/postgres/executions.go:573-612 | fails row and retry and appends one dead letter exactly while the token holds |
| PostgresExecutions.ExecutionStore.Reschedule | infrastructure/postgres/executions.go:618-655 | resolves the retry and inserts the next, all or nothing, exactly while the token holds and no constraint fires |
| PostgresExecutions.ExecutionStore.RecordDispatch | infrastructure/postgres/executions.go:662-695 | flips and logs a retry only for the worker and generation that hold it; otherwise nothing |
| PostgresExecutions.ExecutionStore.GetDue | infrastructure/postgres/executions.go:334-365 | the oldest pending executions whose gate has passed, oldest first; one is left out only from a full listing of no younger ones |
| PostgresExecutions.ExecutionStore.GetStale | infrastructure/postgres/executions.go:367-398 | the longest-expired running executions, oldest expiry first; one is left out only from a full listing of no later ones |
| ExecutionDispatcher.Dispatcher.RecoverStale | internal/execution/dispatcher.go:96-125 | terminates for any number of stale rows and any page size; each ends pending behind its backoff gate or failed with a dead letter; no expired lease is left; nothing else moves |
| ExecutionDispatcher.Dispatcher.ResolveRecovered | internal/execution/dispatcher.go:132-148 | decides a reclaimed execution by its persisted verdict, a missing one counting as an expired lease |
| ExecutionDispatcher.Dispatcher.DispatchDue | internal/execution/dispatcher.go:154-188 | every listed execution ends claimed by this dispatcher at its next attempt, no other row moves, each sent message has the row's fields and rebuilds a token that holds, and each claim leaves one dispatch entry for its retry with this worker and generation |
| ExecutionDispatcher.Dispatcher.Sweep | internal/execution/dispatcher.go:86-91 | recovery then dispatch; with a non-negative lease no expired lease remains |
| ExecutionDispatcher.RecoverOne | internal/execution/dispatcher.go:132-148 | a reclaim and its resolution with nobody in between always commit and recover exactly that execution |
| ExecutionWorker.Worker.Run | internal/execution/worker.go:75-142 | its store calls are actions of its process; scheduled exactly for a retryable cause with attempts left, dead-lettered exactly otherwise; the row then carries the code that fits the cause, its detail and gate, or the one dead letter; a stale token changes nothing; the error returned is exact |
| ExecutionWorker.Worker.FinalizeFailure | internal/execution/worker.go:148-166 | with a held token both writes commit: pending behind the backoff exactly for a retryable cause with attempts left, else failed, with the code, detail and dead letter that fit the cause |
| ExecutionWorker.Worker.Beats | internal/execution/worker.go:107-121 | heartbeats move only the held row's expiry, to a full term after the last one, and the lease is reported lost exactly when the token does not hold |
| RetryPolicy.RetryDelay | internal/execution/retrypolicy.go:9-24 | the doubling loop in wrapping 64-bit arithmetic computes its recursive specification |
| RetryPolicy.DelayIsIdealIff | internal/execution/retrypolicy.go:9-24 | the delay is min(cap, base * 2^(attempt-1)) for every attempt exactly when no doubling below the cap overflows |
| RetryPolicy.DelayCanWrap | internal/execution/retrypolicy.go:9-24 | with base and cap at 2^62 the second delay is negative |
| RetryPolicy.DelayMonotone | internal/execution/retrypolicy.go:9-24 | for 0 < base <= cap < 2^62 the delay never falls as attempts grow |
| RetryPolicy.AttemptWindow | internal/execution/retrypolicy.go:30-48 | the reassigning code computes the window function WindowShrinks is about |
| RetryPolicy.WindowShrinks | internal/execution/retrypolicy.go:30-48 | without overflow the attempt window never grows with the attempt, starts at the full budget and stays at least a second |
| AuditEncoding.EncodeInjective | internal/audit/audit.go:116-121 | length-prefixed encodings of two field lists are equal only if the lists are, whatever bytes and however many fields |
| AuditEncoding.FieldPrefixFree | internal/audit/audit.go:116-121 | an encoding that starts with a field determines the field and the rest |
| AuditChain.Builder.WriteField | internal/audit/audit.go:116-121 | appends one field; the buffer stays the encoding of the fields written |
| AuditChain.GenesisPreimage | internal/audit/audit.go:78-85 | is the encoding of the four root fields |
| AuditChain.ChainPreimage | internal/audit/audit.go:97-113 | is the encoding of the four predecessor and nine event fields |
| AuditChain.ChainFieldsInjective | internal/audit/audit.go:97-113 | equal link pre-images bind equal predecessor hashes, identities and flags and equal event fields |
| AuditChain.RootIsNoLink | internal/audit/audit.go:75-113 | no root pre-image equals a link pre-image |
| AuditChain.VerifyHashChain | internal/audit/audit.go:170-204 | accepts exactly the non-empty, nil-free, rooted, linked and tagged chains |
| AuditChain.HashPinsHistory | internal/audit/audit.go:170-204 | if two accepted chains share a hash at positions k and j then k = j and they agree on every bound field up to there, or SHA-256 collides on their pre-images |
| AuditChain.TamperEvidence | internal/audit/audit.go:170-204 | two accepted chains with one last hash have one length and agree on every bound field, or collide |
| AuditChain.AcceptedIffAgreeing | internal/audit/audit.go:87-113 | without a collision, being accepted with the same last hash is the same as agreeing on the bound fields |
| AuditChain.AppendTells | internal/audit/audit.go:124-153 | the event has the record's type, actor, target, outcome and principle, the given ids and instant, its predecessor as parent, and is no root |
| AuditChain.GenesisTells | internal/audit/audit.go:48-85 | a root has its flag, the genesis outcome and principle, no actor, target, type or parent, and its pre-image starts with the chain constant |
| AuditChain.AppendKeepsVerified | internal/audit/audit.go:124-153 | a genesis event is a verified chain, and an event appended to the last of a verified chain extends it |
| AuditChain.ForkIsRefused | infrastructure/auditstore/store.go:26-31 | an event linked to any but the last event is refused, or exhibits a collision |
| AuditChain.SecondRootIsRefused | infrastructure/auditstore/store.go:61-70 | a chain with a second root is refused, or exhibits a collision |
| AuditChain.PrefixIsVerified | internal/audit/audit.go:170-204 | every non-empty prefix of a verified chain is accepted |
| AuditStore.RowRoundTrip | infrastructure/auditstore/store.go:243-337 | storing and scanning restores the event, nil ids and canonical timestamp included; the two unstored instants become its timestamp |
| AuditStore.AppendExtends | infrastructure/auditstore/store.go:95-152 | an append commits exactly when type, outcome and principle are given, the ids free and the database sound; it adds at the end an event telling the record, with the last one as parent; any other outcome leaves the chain as it was |
| AuditStore.RunsStayIntact | infrastructure/auditstore/store.go:95-152 | over any interleaving of appends with arbitrary aborts the table stays verified, and its chain is the old one followed by one event for each committed call, in commit order, telling exactly what that call recorded |
| AuditStore.Store.Append | infrastructure/auditstore/store.go:95-152 | the table and answer depend on the table alone, the remembered head is irrelevant; a committed record is told by the event returned and held by the row's columns |
| AuditStore.Store.Open | infrastructure/auditstore/store.go:55-73 | an existing log is resumed at its head untouched; an empty one gets its root; a rival's root in between leaves two, and then verification means a collision |
| AuditStore.Store.ReadChain | infrastructure/auditstore/store.go:157-172 | the events in sequence order, or an error if any row cannot be read |
| AuditStore.Store.Verify | infrastructure/auditstore/store.go:178-184 | answers whether the stored chain is verified |
| AuditStore.AuditTable.Last | infrastructure/auditstore/store.go:211-218 | the row of the highest sequence number in use |
| PipelineRuns.StepKeepsInv | internal/orchestration/service.go:122-305 | every action keeps: valid stage and status pairs, approval recorded exactly where it must be, copies that are the row or outdated, unique keys; and each row moves at most one stage and one version |
| PipelineRuns.ResetPassesTheGate | internal/orchestration/service.go:195-239 | a pipeline that failed in review had been approved, so Retry's reset restores a state the gate admits although Retry never asks |
| PipelineRuns.RefusedIff | internal/orchestration/service.go:265-268 | past the gate, a publish is refused at the last moment exactly for want of a publication |
| PipelineRuns.NothingIsTakenBack | internal/orchestration/service.go:122-305 | over any run stages and versions never go back, a recorded approval never changes, a finished pipeline stays as it is |
| PipelineRuns.StagesAreEnteredOnce | internal/orchestration/handler.go:18-44 | however often events are delivered or stages retried, a pipeline enters each stage at most once |
| PipelineRuns.PublishedMeansApproved | internal/orchestration/service.go:142-190 | a pipeline in publish or complete has an approver and time, from an approval by that actor that committed earlier in the run |
| PipelineRuns.PublisherIsCalledOnlyWhenApproved | internal/orchestration/service.go:241-278 | whoever advances to publish, Retry included, works on a copy in review whose approval was committed earlier in the run |
| PipelineRuns.NoUpdateIsLost | infrastructure/postgres/pipelines.go:117-150 | a write that commits replaces exactly the row its copy was read from, but for a publication deleted meanwhile |
| PipelineRuns.StagesAreEnteredByWork | internal/orchestration/service.go:329-363 | every stage a pipeline is in or past was entered earlier in the run by an advance whose ports answered as that stage needs: research and script written, the review yes, the publication out |
| PipelineRuns.StoredPairs | infrastructure/database/database.go:633-640 | in every reachable state each status goes with its stages, failure only with the first three, and approval is recorded exactly from approved review on |
| PipelineDomain.MovedMeans | internal/orchestration/service.go:241-290 | an advance enters the stage exactly if its ports answered as needed, with exactly what they answered; refuses exactly an unreleasable publication; else fails where it was |
| PipelineDomain.TrimMeans | internal/orchestration/service.go:365-385 | trimming takes all spaces off both ends and nothing else |
| PipelineDomain.StoredTextIsBounded | internal/orchestration/service.go:365-385 | stored references and reasons are the trimmed text cut at 512, a reason never empty |
| PipelineDomain.CanAdvanceIff | internal/orchestration/pipeline.go:131-168 | the gate admits exactly the next stage of a live pipeline, and publish only once approved |
| PipelineService.PipelineStore.Update | infrastructure/postgres/pipelines.go:117-150 | compare-and-swap with clamped version and constraints; failure changes nothing |
| PipelineService.Service.DoAdvance | internal/orchestration/service.go:241-305 | enters the stage exactly if the ports answered as needed and the copy was current, with what they answered; a failed port leaves it failed at its old stage; announces exactly a committed entry |
| PipelineService.Service.Advance | internal/orchestration/service.go:122-140 | works exactly a live pipeline of the workspace at the stage named, to publish only an approved one, and leaves it entered, failed or untouched as its ports answered; returns and announces it exactly if its stage moved |
| PipelineService.Service.Approve | internal/orchestration/service.go:144-190 | approves exactly a pipeline awaiting it, by the trimmed actor, now, with its publication approved where there is a port; answers exactly if it then stands approved in review, and announces it |
| PipelineService.Service.Retry | internal/orchestration/service.go:195-239 | puts exactly a failed pipeline back to where its stage is entered from and works it from there; returns and announces the pipeline exactly if its stage moved, one stage on with one more retry counted |
| PipelineService.Service.CreateWithIdempotency | internal/orchestration/service.go:65-117 | a used key returns its one pipeline, announced again only if it never moved, and changes nothing; else a new pipeline is stored, returned and announced, unless refused; a rival that took the key meanwhile is returned instead |
| PipelineService.Handler.AdvanceFromEvent | internal/orchestration/handler.go:18-44 | an event the pipeline has overtaken changes no row and only re-announces the real state; success means the pipeline is past the event's stage |
| PipelineService.EventsNameTheirStage | internal/orchestration/handler.go:62-77 | every announced event's name reads back as the stored stage, and readiness for review is told from approval |
| RefreshProtocol.OneLiveTokenPerFamily | internal/auth/auth.go:289-381 | in serial runs no family ever has two exchangeable tokens, whatever is evicted |
| RefreshProtocol.NoTokenIsExchangedTwice | internal/auth/auth.go:332-381 | in serial runs no token is exchanged twice |
| RefreshProtocol.ReuseEndsTheFamily | internal/auth/auth.go:352-362 | once a used token still held is presented again with no refresh of its family under way, no token of the family is ever exchangeable or issued later in the run |
| RefreshProtocol.PromisesKeptIffSerial | internal/auth/auth.go:347-381 | a run exchanges no token twice, however refreshes under way finish, if and only if no refresh of a family starts while another is under way; and keeps one live token per family under the same condition |
| RefreshProtocol.ReuseEndsTheFamilyIff | internal/auth/auth.go:352-362 | presenting a used token leaves its family without a live token on every serial continuation if and only if no refresh of it was under way |
| RefreshProtocol.OverlapForksTheFamily | internal/auth/auth.go:347-381 | from any state where a refresh starts on a family that has one under way, both can finish with a double exchange and two live successors |
| RefreshProtocol.LateGrantOutlivesReuse | internal/auth/auth.go:347-381 | a refresh under way when reuse revokes its family, its token marked or not, can still be granted a live one |
| RefreshProtocol.OverlapsHappen | internal/auth/auth.go:347-381 | both overlaps are reachable from an empty table |
| RefreshStore.MemoryRefreshStore.Save | internal/auth/auth.go:126-148 | stores the record, making room exactly as specified near the bound; the table never exceeds its sweep threshold |
| RefreshStore.MemoryRefreshStore.RevokeFamily | internal/auth/auth.go:174-186 | revokes exactly the family's tokens, nothing for an empty family |
| RefreshStore.MemoryRefreshStore.EvictExpired | internal/auth/auth.go:190-196 | leaves exactly the records not past their expiry |
| RefreshStore.MemoryRefreshStore.EvictOldest | internal/auth/auth.go:200-229 | removes exactly min(n, size) records, none created after a survivor |
| RefreshStore.JWTService.IssueRefreshToken | internal/auth/auth.go:289-328 | an eviction and a login of a new family; the token is the user's for thirty days |
| RefreshStore.JWTService.VerifyRefreshToken | internal/auth/auth.go:397-403 | accepts exactly the held, unused, unrevoked tokens before their expiry |
| RefreshStore.JWTService.RevokeRefreshToken | internal/auth/auth.go:428-431 | is the protocol's logout of that token |
| RefreshStore.JWTService.Refresh | internal/auth/auth.go:332-382 | undisturbed it is look, mark, eviction and grant; it yields a token exactly for a valid one held, unused, unrevoked and not past its expiry, the user's in the same family for thirty days, and the old one is spent |
| BoundedTables.SelectOldest | internal/auth/auth.go:208-225 | for any iteration order, min(n, size) different keys, none newer than a key left out |
| BoundedTables.DeletedSize | internal/api/ratelimit.go:142-144 | deleting the selection removes exactly that many entries |
| RateLimit.RateLimiter.Allow | internal/api/ratelimit.go:76-104 | the exact new window and answer for a known key; for a new one a sweep when due and a fresh window; the table stays under its threshold |
| RateLimit.RateLimiter.Sweep | internal/api/ratelimit.go:108-145 | drops every elapsed window; a running one goes only from a full table, in a batch of 4096 of which none is younger than a survivor |
| RateLimit.WindowIsCapped | internal/api/ratelimit.go:93-103 | during one window calls pass until the maximum is reached and then none does |
| Throttle.Compact | internal/memory/bank_service.go:356-363 | in-place compaction keeps exactly the times after the cutoff, in order |
| Throttle.Throttler.Allow | internal/memory/bank_service.go:352-370 | one workspace's kept times and the answer are those of the decision; no other workspace's times change |
| Throttle.KeptAreTheLiveGrants | internal/memory/bank_service.go:352-370 | with a clock that does not go back, what is kept is exactly the granted times inside the window |
| Throttle.GrantedIff | internal/memory/bank_service.go:352-370 | a call at t is granted exactly if fewer than limit grants so far lie in (t - window, t]; the grants then grow by t and otherwise stay |
| Throttle.NeverOverTheLimit | internal/memory/bank_service.go:352-370 | over the whole run no interval (t - window, t] holds more than limit grants |
| KnowledgeCursor.CursorRoundTripIff | internal/knowledge/list.go:84-118 | a document's cursor decodes to its position exactly when its instant lies in the accepted range, 64-bit wrap-around included |
| KnowledgeCursor.LaterCursorsAreRefused | internal/knowledge/list.go:107-112 | every later document's cursor is refused |
| KnowledgeCursor.ListQuery.Normalized | internal/knowledge/list.go:53-60 | the limit ends in 1..200 and a valid one is kept |
| KnowledgeListing.KnowledgeStore.ListPage | infrastructure/postgres/knowledge.go:133-196 | stored documents of the workspace, the kind if named and after the cursor, newest first, at most the clamped limit; whatever else was asked for follows all of them, which is so exactly when a cursor is handed out on a full page |
| KnowledgeListing.PrecedesMeans | infrastructure/postgres/knowledge.go:154-163 | the listing order is by creation instant, ties by the first byte in which the ids differ |
| KnowledgeListing.WalkDescends | infrastructure/postgres/knowledge.go:123-132 | whatever is inserted or deleted between pages, a walk only goes down the order: nothing comes twice |
| KnowledgeListing.NothingIsSkipped | internal/knowledge/list.go:64-67 | a walk that reached its end has listed every document present throughout |
| KnowledgeListing.StaticWalkIsTheListing | infrastructure/postgres/knowledge.go:133-196 | over a table at rest, the walk lists exactly the workspace's documents of the kind, if one is named, once each in order |
| KnowledgeListing.StaticWalkEnds | infrastructure/postgres/knowledge.go:187-193 | pages with a cursor are full, so a walk has at most matching / limit of them |
| KnowledgeListing.WalkContinuesIff | internal/knowledge/list.go:110-112 | a page's cursor can be followed exactly when its last document lies in the accepted range |

## Left out

- PostgreSQL itself: isolation, roles and row-level security, connection failures; a store method is one atomic transaction, and time, random ids and provider answers are parameters.
- Rows written to `execution_contexts`, and `Materialize`: an optional value given to the worker.
- The lease generation is unbounded here and 64-bit in the table; the ids of dead letters and dispatch entries are left out.
- RequestHash: a constructor over its three fields, so two budgets or tasks never share a fingerprint; the JSON and the digest are not modelled.
- ExecutionWorker.Worker.Run: the provider call, its prompt and its deadline are parameters (`late`, `stopped`); the heartbeat goroutine is a loop before the call returns. A heartbeat still in flight while the run finalises, and interference by others, are actions of the protocol and not in the class.
- ExecutionDispatcher.Dispatcher.RecoverStale: nobody else acts and the clock is fixed while it runs; arbitrary interference is in the protocol, without termination.
- The broker loses no message here; whether one is ever delivered, and any progress claim, is left out.
- The redaction and JSON of audit details, the truncated timestamp column and the signature's JSON column (taken to hold the tag itself).
- AuditChain.HashPinsHistory: `Faithful` takes every instant of the clock to read back from its RFC 3339 text; Go's formatting is not modelled.
- The pipeline's goal and task columns, its audit records and the per-workspace advance budget (a parameter); a publication deleted between Prepare and the write would also fail a foreign key.
- How often the publisher is called: two advances may both call it before one of them loses the compare-and-swap; only their commits are proved unique.
- `cmd/worker/handler.go:104-125` acknowledges an event it could not work once the pipeline is past it; whether the follow-up event is then ever sent again is left out.
- Token parsing, signing and hashing: a token, its hash and its id are one name, and validity is a parameter. A reuse's lookup and its family revocation are one step.
- KnowledgeCursor.DecodeCursor: a cursor's UUID is read in the 36-character form only.
- KnowledgeListing.NothingIsSkipped: instants in the table fit 64-bit nanoseconds; document contents are one opaque field.
- Text lengths (the key's 128, references' 512) count characters where Go counts bytes.
- HTTP handlers, configuration, roles, departments, teams, tasks, publishing and logging: per-branch plumbing with no property across steps.

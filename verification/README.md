# Authority, commit and evidence in the Aeon agent runtime

This project models the decision-making core of the Aeon agent runtime and proves what it keeps over every
run and every interleaving.

* **The authority kernel** holds a growing forest of signed lease certificates with mutable lease records, signed
  agent identities and an append-only event log. Bootstrap, delegation, pause, resume, cascading revocation,
  cascading expiry, renewal and chain validation are modelled with every branch and error code.
  `Kernel` gives the operations as functions on a state, `KernelObject` is the object that updates its fields in
  place with loops, and each of its methods is proved equal to the function.
* **The protocol** is the runtime as interleaved tasks. A task is one `run_once` call with its action gate and
  execution port; control-plane operations compete with them for the kernel's reader/writer lock. A move
  carries the verdict of the check it makes: `Flow` says where a verdict leads, `Enabled` when locks, budgets and
  the store allow the move, `Judged` that the verdict is what the authority, registry and context checks return at
  that moment, and `Perform` changes the state. An `Interleaving` obeys `Enabled`; a `SysRun` also obeys `Judged`,
  starts from a bootstrapped kernel and changes the kernel only by its operations. Evidence, completeness and budget
  results hold of every interleaving, whatever the checks answer; commit-point results hold of every run. Clock
  readings, model replies, tool and context replacement, append failures and token-issuance failures are arbitrary.
* **The mission store** holds attempt-scoped evidence and single-use authorization records; its completeness check
  is a method with the loops of the source, proved against a declarative definition.
* **Supporting pieces** are the memoised identity walk, breadth-first cascades, registry snapshots and refresh, and
  the canonical set, JSON, byte-frame and hexadecimal encodings.

## How values are represented

A digest is the canonical value it hashes and a signature is the key and payload it covers, so both are ideal:
equal digests mean equal values, and a signature verifies only under its own key and payload. Identifiers and
opaque digests are integers, because the runtime only compares them for equality and by one total order. Times
are integers and every `now` is an arbitrary argument: no property needs a monotone clock. Fresh lease ids are
arguments that must not be in use. A capability is the wildcard, a plain permission or one scoped to a resource
path, ordered by path prefix.

## Findings

* The memo set of the identity walk is not neutral on chains of more than 32 identities: an identity that the
  plain walk rejects as too deep is accepted when the memo set is met early enough. `Identity.MemoAcceptsTooDeep`
  is a concrete chain of 33, with a memo set that the walk itself produces; `Identity.MemoAgreesWithPlain` says exactly when both walks agree. Reachable kernel
  states never hold such a chain (`Guarantees.ForestOfBoundedDepth`), so there the memo set changes nothing.
* The error exits that follow the first mutation in revoke, refresh and renew cannot be reached from any reachable
  state: in `KernelObject` each of them is a proved dead branch, so an error always means an unchanged state.
* Inside expiry the order of ids matters for the outcome but not for the extent: a due lease ends Expired or
  Revoked depending on whether its id precedes those of its due ancestors, while the set of leases that die is
  exactly the due ones (`Expiry.RefreshExact`).
* The completeness check reads events and records under two locks, so it does not simply decide completeness: with
  steps in between it passes exactly when the store was complete when the events were read and nothing was consumed
  since (`Completeness.SplitReadExact`). A call that consumes between the two reads makes it fail although the store
  is complete before and after: `Witness.SplitReadFailsSpuriously` is such a run, move by move. A pass is always
  sound for the moment the events were read.
* The language of the completeness check holds one history that no attempt can produce, a failed execution straight
  after an issued authorization; otherwise it is exactly what attempts can end with (`Attempts.AcceptedExact`).

## Layout

| file | content |
|---|---|
| `Basics.dfy`, `Canonical.dfy` | results and error codes; sort, dedup and their exactness |
| `Authority.dfy`, `Identity.dfy`, `Validation.dfy` | values, identity walk, request, record, certificate and chain checks |
| `Forest.dfy`, `Kernel.dfy`, `KernelObject.dfy` | cascades, kernel operations, the in-place object |
| `Invariant.dfy`, `Preservation.dfy` | the kernel invariant and its preservation by every operation |
| `Effects.dfy`, `Admission.dfy` | when each kernel operation is accepted and exactly what it does, field by field and event by event |
| `Chain.dfy`, `Soundness.dfy` | chain validation on invariant states and on any state |
| `Evolution.dfy`, `Guarantees.dfy`, `Expiry.dfy` | what the invariant gives over whole runs |
| `MissionStore.dfy`, `Registry.dfy`, `Encoding.dfy` | mission store, tool registry, canonical encodings |
| `Execution.dfy`, `Checks.dfy` | gate, observation, refresh and commit checks; when each passes and how it fails |
| `Protocol.dfy`, `ControlFlow.dfy` | the interleaved machine; what its control flow guarantees |
| `Linearization.dfy`, `CommitPoint.dfy`, `NexusRuns.dfy` | lock discipline, freshness, the two commit points, and executions traced back to them |
| `Provenance.dfy`, `Outcomes.dfy` | where a consumed authorization comes from; that an attempt ends with the verdict of the step that ended it |
| `Attempts.dfy`, `EvidenceRuns.dfy`, `Completeness.dfy`, `Budgets.dfy`, `Progress.dfy` | evidence, completeness, budgets and progress over interleaved runs |
| `Witness.dfy` | one run that executes, built step by step |

## Model

| member | source | states |
|---|---|---|
| `CommitPoint.ConsumptionIsLinearized` | crates/aeon_agent_runtime/src/execution.rs:396-489 | In every run, when an authorization is consumed there is an earlier step that granted it, and from that step to the consumption every lease of its chain is the very same entry, Active, and unexpired at the commit's clock reading; a check under the guard, with the kernel unchanged since, found the current context, the lease's and the certificate's equal, the refreshed manifest the lease's, and the action certificate unexpired, signed under the runtime key and binding tool and input; the token is bounded. |
| `CommitPoint.CheckIsSound` | crates/aeon_agent_runtime/src/execution.rs:411-448 | What a passed commit check of a run establishes about context, identity, manifest and action certificate. |
| `CommitPoint.CheckOrigin` | crates/aeon_agent_runtime/src/authority_kernel.rs:382-399 | The check that made a call ready to consume is an earlier step of its own, and the kernel has not changed since. |
| `NexusRuns.RunIsLinearized` | crates/aeon_agent_runtime/src/execution.rs:473-513 | Whatever ran in Nexus was consumed at an earlier step, with everything `CommitPoint.ConsumptionIsLinearized` says of that consumption. |
| `NexusRuns.InterferenceNeverRuns` | crates/aeon_agent_runtime/src/execution.rs:396-513 | If any lease of a granted chain changes before the authorization is consumed, the call never runs in Nexus. |
| `NexusRuns.ConsumedOnBoundRegistry` | crates/aeon_agent_runtime/src/execution.rs:380-395 | In every run a consumption means that, when the call refreshed its manifest, the refresh succeeded and the registry held exactly the pairs of the registry the leaf's manifest was bound on. |
| `CommitPoint.InterferenceRejects` | crates/aeon_agent_runtime/src/authority_kernel.rs:382-399 | Once any lease of a granted chain has changed, by pause, resume, revocation, expiry or renewal and even if changed back, no later step consumes that authorization. |
| `CommitPoint.ConsumedWithinChain` | crates/aeon_agent_runtime/src/execution.rs:223-248 | Every capability a consumed authorization needs is covered by every lease of its chain and by the mission, and none is the wildcard. |
| `Provenance.ConsumedToolBound` | crates/aeon_agent_runtime/src/execution.rs:162-196 | In every run a consumed authorization is for a tool in the mission's allowlist, and the pair of that tool and the authorized digest is among the tools of the stored manifest of its lease. |
| `Provenance.RanToolBound` | crates/aeon_agent_runtime/src/execution.rs:162-196 | The same of whatever ran in Nexus, at the step that consumed its authorization. |
| `Provenance.ConsumedAsProposed` | crates/aeon_agent_runtime/src/supervisor.rs:225-328 | In every run a consumed authorization carries out the proposal that this call's own model made after this call observed the context the runtime had when the call began; it was granted for the lease that was the root lease when the gate looked; the six read steps, the grant and the consumption come in that order. |
| `Provenance.GrantedAsProposed` | crates/aeon_agent_runtime/src/execution.rs:149-304 | Every authorization granted in a run has the fields the gate promises: mission, agent identity, lease, context, tool, digest, input, record, one use, generation 0, issue time, and the earlier of five minutes and the lease's end, signed by the runtime; its lease is the runtime's own, the mission ran, and authority of mission and lease covers what is required. |
| `Provenance.ObservedAsRead` | crates/aeon_agent_runtime/src/supervisor.rs:225-231 | An observation is of the root lease as this call read it, and its context is the runtime's when the call began. |
| `Provenance.ConsumedWithoutDrift` | crates/aeon_agent_runtime/src/execution.rs:376-392 | In every run a consumption means that, when the call refreshed its manifest, the registry held the tool under the authorized digest and every tool as the lease binds it, and no others than at binding. |
| `CommitPoint.FinalIsLinearized` | crates/aeon_agent_runtime/src/supervisor.rs:554-604 | A final result is logged only if the lease observed before the model call, and its whole chain, did not change until the append, and the semantic context at the append is the one observed. |
| `CommitPoint.EqualGenerationsSameChain` | crates/aeon_agent_runtime/src/execution.rs:413-427 | Equal generation vectors at two moments mean that every lease of the chain was the same entry at every moment between. |
| `CommitPoint.GrantedOnce` | crates/aeon_agent_runtime/src/supervisor.rs:302-325 | A task is granted at most one authorization. |
| `CommitPoint.AuthorizeShape` | crates/aeon_agent_runtime/src/execution.rs:198-304 | What a successful authorization establishes, and that its certificate later validates exactly under the signer's key and before its expiry. |
| `Checks.GateExact` | crates/aeon_agent_runtime/src/execution.rs:149-304 | Without interference the gate fails exactly with the first of the stated reasons, each with its code, and otherwise issues an authorization with exactly the promised fields for a tool that mission, registry and lease know under the same digest. |
| `Checks.AuthorizeExact` | crates/aeon_agent_runtime/src/execution.rs:198-304 | The same of the part after tool resolution, for a snapshot read earlier. |
| `Checks.GateToolExact` | crates/aeon_agent_runtime/src/execution.rs:176-196 | The tool must be registered, every tool of the lease's manifest too, and the lease must bind it as it is registered. |
| `Checks.ObserveExact` | crates/aeon_agent_runtime/src/supervisor.rs:519-552 | The observation before a model call fails exactly with the first of the stated reasons, each with its code, and otherwise reports the chain root first. |
| `Checks.FinalExact` | crates/aeon_agent_runtime/src/supervisor.rs:554-597 | When a final result is accepted, and the code of each refusal. |
| `Checks.ResolveForExecutionExact` | crates/aeon_agent_runtime/src/execution.rs:376-392 | The refresh before execution passes exactly when every tool is registered and the called one still has the authorized digest. |
| `Checks.CommitExact` | crates/aeon_agent_runtime/src/execution.rs:394-469 | The commit check fails exactly with the first of the stated reasons, each with its code, and otherwise yields the token validity. |
| `Checks.TokenValidityExact` | crates/aeon_agent_runtime/src/execution.rs:452-469 | Token validity is exactly the least of thirty seconds and what is left of lease and certificate; with nothing left it is an error. |
| `Checks.ChainExact` | crates/aeon_agent_runtime/src/authority_kernel/validation.rs:3-76 | On invariant states chain validation fails exactly with the first of four reasons; otherwise it hands out the leaf's bindings and the references and generations of the chain, root first. |
| `CommitPoint.SysEvolves` | crates/aeon_agent_runtime/src/authority_kernel.rs:600-626 | Between any two moments of an interleaved run leases keep certificate and manifest, generations never decrease, and dead records never change. |
| `Linearization.RunKeepsAuthority` | crates/aeon_agent_runtime/src/authority_kernel.rs:382-399 | In every state of every run: the kernel invariant holds, guards are held exactly by tasks inside a guarded section and never together with a writer, and whatever a task remembers about the kernel is still usable as the source relies on it. |
| `Linearization.SnapshotAgrees` | crates/aeon_agent_runtime/src/execution.rs:175-203 | A lease snapshot and a chain validation under two separate locks agree as if read at once whenever the generation matches. |
| `Linearization.CommitCheckFresh` | crates/aeon_agent_runtime/src/execution.rs:396-469 | What a passed commit check establishes about the chain, the token, the context, the manifest and the signed action certificate. |
| `Linearization.BoundedByChain` | crates/aeon_agent_runtime/src/execution.rs:452-469 | Token validity is positive, at most thirty seconds, and ends no later than the certificate, every lease of the chain and the mission. |
| `Execution.IssueTokens` | crates/aeon_agent_runtime/src/execution.rs:515-532 | All required tokens in order with the given validity, or none; the metric counts the tokens minted before the first refusal. |
| `Completeness.CompletenessExact` | crates/aeon_agent_runtime/src/store.rs:307-395 | At every point of every interleaving, whichever appends failed, the check passes exactly when every attempt that logged anything has logged its terminal event and no consumption lacks its evidence. |
| `Completeness.ReliableCompleteness` | crates/aeon_agent_runtime/src/supervisor.rs:225-398 | When evidence appends succeed, the check passes exactly when every attempt that logged anything has logged its terminal event. |
| `Completeness.SplitReadExact` | crates/aeon_agent_runtime/src/store.rs:308-370 | The check on events read at one moment and records read at a later one passes exactly when the store was complete when the events were read and nothing was consumed since. |
| `Completeness.SplitReadIsSound` | crates/aeon_agent_runtime/src/store.rs:308-370 | If it passes, the store was complete when the events were read. |
| `Witness.SplitReadFailsSpuriously` | crates/aeon_agent_runtime/src/store.rs:308-370 | A run in which the store is complete at both moments and the check across them fails. |
| `Witness.ExecutingRun` | crates/aeon_agent_runtime/src/supervisor.rs:225-398 | There is a run in which a call observes, is granted, commits, executes in Nexus and closes its attempt. |
| `Completeness.DroppedEvidence` | crates/aeon_agent_runtime/src/execution.rs:491-502 | If appending the consumption evidence fails, the check fails in every later state and the record can never be consumed again. |
| `Completeness.LostForever` | crates/aeon_agent_runtime/src/store.rs:343-394 | An attempt that ended without its consumption evidence keeps the store incomplete in every later state. |
| `Completeness.NeverConsumedAgain` | crates/aeon_agent_runtime/src/store.rs:268-292 | A consumed record rejects every later consumption, whatever generation is expected. |
| `Completeness.ConsumedOnce` | crates/aeon_agent_runtime/src/store.rs:366-380 | Each attempt has at most one consumed record. |
| `Completeness.ClosedIffAccepted` | crates/aeon_agent_runtime/src/store.rs:432-473 | A history a task can have is in the accepted language exactly when its last event is a terminal one. |
| `Attempts.AcceptedExact` | crates/aeon_agent_runtime/src/store.rs:432-473 | The accepted histories are exactly those an attempt can end with, and one more that no attempt takes: a failed execution straight after an issued authorization. |
| `EvidenceRuns.RunKeepsEvidence` | crates/aeon_agent_runtime/src/store.rs:101-233 | In every state of every interleaving each attempt's history is what its own task logged, records belong to one task and attempt each and are Consumed exactly when that task spent them, and the log is founded, contiguous and attributed. |
| `ControlFlow.FlowProceeds` | crates/aeon_agent_runtime/src/supervisor.rs:225-398 | Every control-flow edge logs the next event of the full history, passes the next milestone, or closes the attempt with a kind of event allowed at that point (which one, and with which code, is `ControlFlow.FlowMeets`); it stays or strictly reduces what is left; without a failing append a consumption goes on to its evidence. |
| `ControlFlow.FlowMeets` | crates/aeon_agent_runtime/src/supervisor.rs:225-398 | Every move either lets its call go on, ends it silently, or commits it to the terminal event that records the verdict of that move with its code. |
| `Outcomes.TerminalIsVerdict` | crates/aeon_agent_runtime/src/supervisor.rs:245-395 | In every interleaving the terminal event of an attempt is the verdict of exactly one earlier step of its own: a Nexus answer is logged as that answer, a model failure or malformed reply with its code, an exhausted budget as BudgetExhausted, a failed check with the code it returned, a failed append as Internal. |
| `Outcomes.VerdictIsJustified` | crates/aeon_agent_runtime/src/supervisor.rs:245-395 | In every run that verdict is what the named check returned on the state of that step: final check, gate snapshot, tool resolution, authorization, action budget, record insertion, refresh, commit check or consumption. |
| `Outcomes.SilenceIsJustified` | crates/aeon_agent_runtime/src/supervisor.rs:226-239 | A call ends without an event only if there was no lease or no usable authority to observe, no step or instruction left, or an event could not be appended. |
| `Outcomes.DecidedOnce` | crates/aeon_agent_runtime/src/supervisor.rs:225-398 | A call is decided at most once. |
| `ControlFlow.FlowKeeps` | crates/aeon_agent_runtime/src/execution.rs:149-513 | Guards are entered and left exactly at the edges of the guarded sections, budgets and records are taken at one point each, and what a program point remembers comes from the move that read it. |
| `Attempts.ShapeKept` | crates/aeon_agent_runtime/src/supervisor.rs:232-396 | Every move keeps the correspondence between program point, logged history and taken milestones. |
| `Attempts.ClosedIsAccepted` | crates/aeon_agent_runtime/src/store.rs:432-473 | Every way an attempt can close lies in the accepted language. |
| `Attempts.SpineIsUnfinished` | crates/aeon_agent_runtime/src/store.rs:432-473 | No unfinished history is in the accepted language. |
| `Budgets.BudgetsHold` | crates/aeon_agent_runtime/src/supervisor.rs:232-342 | At every point of every interleaving: Nexus executions, consumed records, records, actions taken and the mission's action budget form an ascending chain, and so do model calls, steps and the step budget. |
| `Budgets.RunKeepsBudget` | crates/aeon_agent_runtime/src/supervisor.rs:614-626 | Each counter equals the number of tasks that passed the corresponding step, and reservations never exceed their limits. |
| `Progress.NeverStuck` | crates/aeon_agent_runtime/src/supervisor.rs:225-398 | While no writer holds the lock every unfinished task has an enabled move that advances it. |
| `Progress.EveryAttemptCanFinish` | crates/aeon_agent_runtime/src/supervisor.rs:225-398 | At every point of every interleaving with successful appends and no writer, each attempt can be brought to its closed end by at most 27 of its own moves, each with the verdict the checks return at its turn. |
| `Guarantees.ReachableChainCollapses` | crates/aeon_agent_runtime/src/authority_kernel/validation.rs:3-76 | On every reachable state chain validation returns exactly what existence, generation, activity of the path, leaf expiry and manifest equality give, with the same error codes; every other error is dead. |
| `Chain.ChainCollapses` | crates/aeon_agent_runtime/src/authority_kernel/validation.rs:3-144 | The same on every state with the certificate and record invariants. |
| `Soundness.ChainSound` | crates/aeon_agent_runtime/src/authority_kernel/validation.rs:3-255 | In any state, reachable or not, an accepted chain is at most 32 distinct leases from the leaf to a parentless one, each Active, unexpired, bound to the mission, its manifest and registered identities with verified identity chains, signed by its issuer and correctly linked to the lease it renews, each link exact and attenuated, with the expected leaf generation and manifest; the report lists it root first. |
| `Soundness.ChainComplete` | crates/aeon_agent_runtime/src/authority_kernel/validation.rs:3-255 | In any state every such chain is accepted, provided no identity chain has more than 32 identities. |
| `Chain.AgentPathTrusted` | crates/aeon_agent_runtime/src/authority_kernel/validation.rs:146-208 | The verified identity chain of a lease's agent follows its lease chain. |
| `Chain.LeafExpiresFirst` | crates/aeon_agent_runtime/src/authority_kernel/validation.rs:230-255 | A lease never outlives a lease above it. |
| `Validation.CheckChain` | crates/aeon_agent_runtime/src/authority_kernel/validation.rs:3-76 | The loop with visited and memo sets computes the recursive definition, and checks each identity's signature at most once. |
| `Validation.CheckCertificateEntry` | crates/aeon_agent_runtime/src/authority_kernel/validation.rs:78-144 | The certificate checks with the memoised identity walk compute their definition and extend the memo set only on success. |
| `Validation.CheckLinks` | crates/aeon_agent_runtime/src/authority_kernel/validation.rs:46-49 | The loop over adjacent chain entries computes the recursive attenuation check. |
| `Identity.ValidateIdentityChain` | crates/aeon_agent_runtime/src/authority_kernel/validation.rs:146-208 | The loop computes the recursive walk, leaves the memo set alone on failure, and checks no identity that is in the memo set. |
| `Identity.MemoisedIdentityExact` | crates/aeon_agent_runtime/src/authority_kernel/validation.rs:146-208 | The memoised check accepts exactly the agents with a complete verified chain whose part outside the memo set fits the depth bound, and keeps the memo set sound. |
| `Identity.PlainIdentityExact` | crates/aeon_agent_runtime/src/authority_kernel/validation.rs:146-208 | With an empty memo set exactly the verified chains of at most 32 identities are accepted. |
| `Identity.MemoAgreesWithPlain` | crates/aeon_agent_runtime/src/authority_kernel/validation.rs:146-208 | Exactly when the memoised and the plain check agree. |
| `Identity.MemoRejectsUntrusted` | crates/aeon_agent_runtime/src/authority_kernel/validation.rs:146-208 | Without a complete verified chain both reject. |
| `Identity.MemoAcceptsTooDeep` | crates/aeon_agent_runtime/src/authority_kernel/validation.rs:146-208 | A concrete chain of 33 identities on which they disagree, with the memo set that checking its second identity produces. |
| `Preservation.RunKeepsInv` | crates/aeon_agent_runtime/src/authority_kernel.rs:150-598 | The kernel invariant holds in every state of every run of kernel operations. |
| `Preservation.ApplyInv` | crates/aeon_agent_runtime/src/authority_kernel.rs:249-626 | Every successful operation keeps the invariant. |
| `Preservation.BootstrapInv` | crates/aeon_agent_runtime/src/authority_kernel.rs:150-224 | Bootstrap establishes it. |
| `Preservation.DelegateInv` | crates/aeon_agent_runtime/src/authority_kernel.rs:249-363 | Delegation keeps it. |
| `Preservation.RenewInv` | crates/aeon_agent_runtime/src/authority_kernel.rs:511-598 | Renewal, with its cascade and retirement, keeps it. |
| `Preservation.RevokeInv` | crates/aeon_agent_runtime/src/authority_kernel.rs:433-475 | Revocation keeps it and only kills. |
| `Preservation.RefreshInv` | crates/aeon_agent_runtime/src/authority_kernel.rs:477-509 | Expiry keeps it and only kills. |
| `Preservation.TransitionInv` | crates/aeon_agent_runtime/src/authority_kernel.rs:600-626 | Pause and resume keep it. |
| `Effects.PauseExact` | crates/aeon_agent_runtime/src/authority_kernel.rs:401-415 | Pause succeeds exactly on an Active, unexpired lease of the expected generation, with the code of each refusal; then that lease is Paused, one generation on, one LeasePaused event is logged, and nothing else changes. |
| `Effects.ResumeExact` | crates/aeon_agent_runtime/src/authority_kernel.rs:417-431 | Resume succeeds exactly on a Paused, unexpired lease of the expected generation, with the code of each refusal; then that lease is Active, one generation on, one LeaseResumed event is logged, and nothing else changes. |
| `Effects.PauseThenResume` | crates/aeon_agent_runtime/src/authority_kernel.rs:401-431 | Resuming undoes a pause but for two generations and two events. |
| `Effects.RevokeAccepted` | crates/aeon_agent_runtime/src/authority_kernel.rs:433-454 | Revocation succeeds exactly on an Active or Paused lease of the expected generation; the code of each refusal. |
| `Effects.RevokeExact` | crates/aeon_agent_runtime/src/authority_kernel.rs:455-475 | It revokes exactly the Active and Paused leases at or below the given one, each one generation on with time and reason, changes no other lease, and logs exactly one event for each, the lease itself first and named by the others. |
| `Effects.RefreshEffect` | crates/aeon_agent_runtime/src/authority_kernel.rs:477-509 | Refresh changes exactly the Active and Paused leases whose expiry time has come, to Expired or, below a lapsed ancestor of smaller id, to Revoked with the stated reason, and changes no other field of the state but the log. |
| `Effects.RefreshLogs` | crates/aeon_agent_runtime/src/authority_kernel.rs:490-507 | It logs exactly one event for each of them: LeaseExpired for those that expired, LeaseRevoked naming the expired ancestor for the others. |
| `Admission.BootstrapExact` | crates/aeon_agent_runtime/src/authority_kernel.rs:709-748 | Bootstrap fails exactly with the first of the stated reasons, each with its code, and otherwise succeeds. |
| `Admission.BootstrapEffect` | crates/aeon_agent_runtime/src/authority_kernel.rs:155-224 | Every field of the fresh kernel: the root identity, the lease with the request's authority, manifest, context and expiry, its signature, and the two events. |
| `Admission.DelegateExact` | crates/aeon_agent_runtime/src/authority_kernel.rs:249-300 | From a state that satisfies the invariant delegation fails exactly with the first of the stated reasons, each with its code, a taken key id and a false custodian included, and otherwise succeeds. |
| `Admission.DelegateEffect` | crates/aeon_agent_runtime/src/authority_kernel.rs:301-363 | Every field of what a delegation adds: the child identity, the lease with the request's agent, authority, manifest, context and expiry, the parent's reference and the signatures, and the two events; nothing else changes. |
| `Admission.RenewExact` | crates/aeon_agent_runtime/src/authority_kernel.rs:511-566 | From a state that satisfies the invariant renewal fails exactly with the first of the stated reasons, each with its code, and otherwise succeeds. |
| `Admission.RenewalIssues` | crates/aeon_agent_runtime/src/authority_kernel.rs:535-566 | Every field of the renewed certificate: agent, parent and identity of the old one, everything else as requested, signed by the issuer. |
| `Admission.RenewEffect` | crates/aeon_agent_runtime/src/authority_kernel.rs:567-597 | Renewal retires the old lease in favour of the new one, revokes exactly the Active and Paused leases strictly below it, moves the root id along, and logs one event for each death and one for the renewal; nothing else changes. |
| `Guarantees.ForestOfBoundedDepth` | crates/aeon_agent_runtime/src/authority_kernel.rs:249-363 | Parent links form an acyclic forest of depth at most 32, and identity depth equals lease depth. |
| `Guarantees.LiveAncestors` | crates/aeon_agent_runtime/src/authority_kernel.rs:433-598 | Every ancestor of a live lease is live. |
| `Guarantees.NothingLivesBelowTheDead` | crates/aeon_agent_runtime/src/authority_kernel.rs:433-598 | After a lease has been revoked, has expired or was retired no later state has a live lease below it; that these operations kill it is `Effects.RevokeExact`, `Effects.RefreshEffect` and `Admission.RenewEffect`. |
| `Guarantees.MissionBoundsAll` | crates/aeon_agent_runtime/src/authority_kernel.rs:709-826 | In every reachable state authority, tools and expiry of every lease, parentless ones included, are within the mission's. |
| `Guarantees.AuthorityOnlyShrinks` | crates/aeon_agent_runtime/src/authority_kernel.rs:709-826 | In every reachable state authority, tools and expiry of a lease are within those of every ancestor. |
| `Guarantees.AttenuatedBelow` | crates/aeon_agent_runtime/src/authority_kernel/validation.rs:274-366 | Attenuation composes along any number of parent links. |
| `Guarantees.OneLiveLease` | crates/aeon_agent_runtime/src/authority_kernel.rs:276-291 | An agent has at most one live lease. |
| `Guarantees.UnbranchedHistory` | crates/aeon_agent_runtime/src/authority_kernel.rs:511-598 | The leases of an agent form one unbranched renewal history. |
| `Guarantees.EarlierRank` | crates/aeon_agent_runtime/src/authority_kernel.rs:780-826 | Every earlier lease of that history exists, is retired, has the same parent and context, and was at least as wide. |
| `Guarantees.RootIsNewest` | crates/aeon_agent_runtime/src/authority_kernel.rs:587-589 | The root lease id names the newest parentless lease. |
| `Guarantees.DeadAgentsStayDead` | crates/aeon_agent_runtime/src/authority_kernel.rs:276-291 | An agent whose last lease died never holds a live lease again. |
| `Guarantees.LogRebuildsLeases` | crates/aeon_agent_runtime/src/authority_kernel/validation.rs:436-478 | Replaying the log rebuilds every lease's state, generation, revocation time and successor; generations count lifecycle events; sequence numbers are contiguous. |
| `Evolution.RunEvolves` | crates/aeon_agent_runtime/src/authority_kernel.rs:433-626 | Between any two states of a run generations never decrease and nothing dead changes. |
| `Evolution.RunStepsOnce` | crates/aeon_agent_runtime/src/authority_kernel.rs:600-626 | One operation changes a record at most once, by one generation, and only if it was live. |
| `Evolution.SameGenerationSameLease` | crates/aeon_agent_runtime/src/execution.rs:413-427 | Equal generations at two moments mean the lease was the same entry at every moment between. |
| `Evolution.DeadIsFinal` | crates/aeon_agent_runtime/src/authority_kernel.rs:600-626 | Revoked, Expired and Retired are absorbing. |
| `Expiry.RefreshExact` | crates/aeon_agent_runtime/src/authority_kernel.rs:477-509 | The same outcome of refresh as `Effects.RefreshEffect`, derived from the loop: each due lease ends Expired or Revoked by the stated order of ids; nothing that was not due dies. |
| `Expiry.ExpiredListExact` | crates/aeon_agent_runtime/src/authority_kernel.rs:477-509 | The returned list holds exactly the leases that ended Expired, ascending. |
| `Forest.CascadeExact` | crates/aeon_agent_runtime/src/authority_kernel/validation.rs:400-434 | On any lease map, cyclic ones included, a cascade lists exactly the leases below the root, each once, breadth first with siblings sorted. |
| `Forest.BreadthFirstUnique` | crates/aeon_agent_runtime/src/authority_kernel/validation.rs:400-434 | That order is unique, so the map's iteration order does not show. |
| `Forest.DescendantsIncluding` | crates/aeon_agent_runtime/src/authority_kernel/validation.rs:400-434 | The queue loop terminates on any map and returns that listing, or the missing-lease error. |
| `KernelObject.AuthorityKernel.Delegate` | crates/aeon_agent_runtime/src/authority_kernel.rs:249-363 | In-place delegation equals the state function, whose effect `Admission.DelegateEffect` states; an error leaves the state unchanged. |
| `KernelObject.AuthorityKernel.Change` | crates/aeon_agent_runtime/src/authority_kernel.rs:600-626 | In-place pause and resume equal the state function, whose effect `Effects.PauseExact` and `Effects.ResumeExact` state; an error leaves the state unchanged. |
| `KernelObject.AuthorityKernel.Revoke` | crates/aeon_agent_runtime/src/authority_kernel.rs:433-475 | In-place cascading revocation equals the state function, whose effect `Effects.RevokeExact` states, and returns the cascade's leases; an error leaves the state unchanged. |
| `KernelObject.AuthorityKernel.RevokeListed` | crates/aeon_agent_runtime/src/authority_kernel/validation.rs:436-462 | The revocation loop equals the fold over the listing. |
| `KernelObject.AuthorityKernel.RefreshExpirations` | crates/aeon_agent_runtime/src/authority_kernel.rs:477-509 | The expiry loop equals the state function and returns exactly the leases that ended Expired. |
| `KernelObject.AuthorityKernel.Renew` | crates/aeon_agent_runtime/src/authority_kernel.rs:511-598 | In-place renewal equals the state function; an error leaves the state unchanged. |
| `KernelObject.AuthorityKernel.Push` | crates/aeon_agent_runtime/src/authority_kernel/validation.rs:464-478 | Appends one event with the next sequence number and changes nothing else. |
| `KernelObject.BootstrapKernel` | crates/aeon_agent_runtime/src/authority_kernel.rs:150-224 | Builds a kernel whose state is the bootstrap state and satisfies the kernel invariant, or reports its error. |
| `MissionStore.InMemoryMissionStore.AppendEvent` | crates/aeon_agent_runtime/src/store.rs:101-141 | Appends one event with the next sequence number and changes nothing else. |
| `MissionStore.InMemoryMissionStore.BeginAttempt` | crates/aeon_agent_runtime/src/store.rs:89-91 | Draws the next nonzero attempt id and changes nothing else. |
| `MissionStore.InMemoryMissionStore.InsertAuthorization` | crates/aeon_agent_runtime/src/store.rs:190-233 | Inserts a record and its attempt binding, or rejects a zero attempt or a known id without change. |
| `MissionStore.InMemoryMissionStore.ConsumeAuthorizationWith` | crates/aeon_agent_runtime/src/store.rs:268-292 | Spends the first record with that id after the commit closure succeeds; otherwise no change. |
| `MissionStore.ConsumeExact` | crates/aeon_agent_runtime/src/store.rs:268-292 | A record is spent exactly when it is Issued, of the expected generation and with uses left, and the commit succeeds; then it is Consumed with one use fewer and one generation more; the code of each refusal. |
| `MissionStore.InsertExact` | crates/aeon_agent_runtime/src/store.rs:190-233 | A record is refused for attempt zero or a known id, and otherwise added at the end and bound to its attempt. |
| `MissionStore.InMemoryMissionStore.VerifyEventCompleteness` | crates/aeon_agent_runtime/src/store.rs:307-395 | The loops pass exactly on the stores that meet the declarative completeness condition. |
| `MissionStore.InMemoryMissionStore.GroupAttempts` | crates/aeon_agent_runtime/src/store.rs:343-358 | Grouping succeeds exactly when every event is attributed, and yields each attempt's history. |
| `MissionStore.InMemoryMissionStore.CountConsumed` | crates/aeon_agent_runtime/src/store.rs:366-380 | Counting succeeds exactly when every consumed record is bound, and yields each attempt's count. |
| `MissionStore.AcceptedPrefixFree` | crates/aeon_agent_runtime/src/store.rs:432-473 | No accepted history extends another. |
| `MissionStore.AcceptedEvidence` | crates/aeon_agent_runtime/src/store.rs:432-473 | An accepted history holds at most one consumption event, exactly when it has six or more events. |
| `MissionStore.CompleteBindsConsumption` | crates/aeon_agent_runtime/src/store.rs:343-394 | When the check passes, each consumed record belongs to an attempt of its own with exactly one consumption event. |
| `Registry.RefreshDetectsDrift` | crates/aeon_agent_runtime/src/tool_registry.rs:292-315 | A manifest bound on one registry keeps its canonical identity when refreshed on another exactly when both hold the same tool and digest pairs, in any order. |
| `Registry.RefreshExact` | crates/aeon_agent_runtime/src/tool_registry.rs:262-315 | Refresh succeeds exactly when every tool of the template is registered; it binds each, in order, to its registered digest, records the registry root and keeps the rest. |
| `Registry.ResolveExact` | crates/aeon_agent_runtime/src/tool_registry.rs:243-259 | Resolving a tool succeeds exactly when it is registered and the template refreshes, and returns that tool and the refreshed template. |
| `Registry.RefreshIdempotent` | crates/aeon_agent_runtime/src/tool_registry.rs:262-315 | Refreshing twice is refreshing once. |
| `Registry.RootDigestExact` | crates/aeon_agent_runtime/src/tool_registry.rs:317-329 | Registry roots are equal exactly when the registered pairs are. |
| `Registry.DriftRejected` | crates/aeon_agent_runtime/src/authority_kernel/validation.rs:331-352 | After registry drift refreshing a lease's manifest fails, or yields one that chain validation and renewal reject. |
| `Registry.FromTools` | crates/aeon_agent_runtime/src/tool_registry.rs:168-183 | A registry is accepted exactly when no id repeats, and then looking up an id finds exactly its registered tool. |
| `Canonical.SortDedupExact` | crates/aeon_agent_runtime/src/authority.rs:302-316 | Sort-and-dedup forms are equal exactly when the sets are. |
| `Canonical.SortByExact` | crates/aeon_agent_runtime/src/authority.rs:107-120 | Without repeats sorting alone is exact. |
| `Authority.ManifestDigestExact` | crates/aeon_agent_runtime/src/authority.rs:96-134 | Manifests share their canonical identity exactly when they agree on scalars, tool set and permission set. |
| `Authority.CapsWithinExact` | crates/aeon_agent_runtime/src/authority.rs:42-52 | One list of capabilities is within another exactly when it permits no access the other does not. |
| `Encoding.ContextContinuesExactly` | crates/aeon_agent_runtime/src/agent.rs:195-257 | A context continues another exactly when they differ only in version and in order and repeats of tools. |
| `Encoding.CanonicalJsonExact` | crates/aeon_agent_runtime/src/digest.rs:195-209 | Canonical JSON forms are equal exactly when the values are equal up to key order at every depth. |
| `Encoding.CanonicalJsonIdempotent` | crates/aeon_agent_runtime/src/digest.rs:195-209 | Canonicalizing twice is canonicalizing once. |
| `Encoding.CanonicalKeepsValue` | crates/aeon_agent_runtime/src/digest.rs:195-209 | Canonicalizing changes nothing but key order. |
| `Encoding.CanonicalBytes` | crates/aeon_agent_runtime/src/digest.rs:161-185 | The buffer is the frame of domain and payload; rejects exactly empty or oversized inputs. |
| `Encoding.FrameRoundTrip` | crates/aeon_agent_runtime/src/digest.rs:161-185 | A reader recovers domain, payload and whatever follows. |
| `Encoding.FramesPrefixFree` | crates/aeon_agent_runtime/src/digest.rs:161-185 | Frames are injective and prefix-free over domain and payload. |
| `Encoding.HexRoundTrip` | crates/aeon_agent_runtime/src/digest.rs:34-71 | Decoding accepts exactly the encoder's outputs and inverts it. |
| `Encoding.ToHex` | crates/aeon_agent_runtime/src/digest.rs:34-41 | The loop computes the lowercase encoding. |
| `Encoding.FromHex` | crates/aeon_agent_runtime/src/digest.rs:43-62 | The loop accepts exactly 64 lowercase digits and returns their decoding. |

## Left out

- Wrap-around of generations, sequence numbers and attempt ids: they are natural numbers, the source uses 64-bit counters.
- Ed25519 and SHA-256: signatures and digests are ideal, as described above.
- Nexus, WASM and `issue_token`: only that token issuance may fail before consumption and that an execution answers with an error, an unsuccessful or a successful output.
- Program text of `run_once` and `execute_inner`: they are modelled as step machines, because their properties are about interleavings; each source statement that touches shared state is one move, and the values they return to their caller are not modelled.
- `ActionCertificate` leaves out the certificate id and the action reference, which no check consults.
- JSON-schema checking of tool inputs: its verdict is an arbitrary input of the gate.
- JSON serialization of canonical values to bytes, serde parsing, identifier and text validators, and the protocol parser: library parsing and single-branch checks.
- Standard-library sorts and dedups are functions on sequences; the model does not capture that the source sorts a clone in place.
- Tool manifests are digest atoms; a registry is its list of tool ids and manifest digests.
- `occurred_at` of mission events, `Debug` output, metrics other than the four counters of the budget property, and the certificate ledger.
- Lock poisoning, test hooks and lock fairness; `Progress` shows that attempts can finish, not that a scheduler lets them.
- `KeyCustody::sign` returning an error: signing always succeeds here; in the source such an error ends the operation before any change, like a failed check.

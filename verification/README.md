# A verified model of GAAP

GAAP runs an agent under governance: every protected effect passes deterministic gates before an executor may
perform it, everything is written to an append-only ledger, and the finished ledger is sealed as a terminal receipt
that others can check. This project models the producer of that evidence, the two independent checkers of it, and the
adapters that feed the producer, and proves that they agree.

## What is modelled

- **The gates** (`RunCoordinator.dfy`): the six coordinator decisions, each code with its exact condition.
  `ConfiguredGates.dfy` says what the gates answer under a run's configuration, on the configuration alone.
- **The first checker** (`ReceiptChecker.dfy`): the one-pass receipt validator, as a loop proved against a replay
  function. `ReceiptTrace.dfy` gives a whole-trace specification without any pass variables and proves that the two
  accept the same receipts. `ResultChecker.dfy` is the checker of one effect result, and `ResultRules.dfy` says which
  results it accepts without its steps. `Refusals.dfy` sorts the demands on requests, effects, results and receipts by
  error category, and proves that a refused document fails what the category of its refusal demands.
- **The producer** (`AgentLedger.dfy`, `RunEngine.dfy`): `AgentLedger.Ledger` and `RunEngine.AgentRunEngine` are classes. The
  three ports answer from an arbitrary script, so every theorem about a run holds for every sequence of replies.
  The ledger carries the checker's replay state as a ghost field; each recording method states when it keeps the two in
  step. `EffectSteps.dfy` describes one effect as the ledger shows it and records every executor call together with the
  ledger and the usage at that moment. `ResultBuilder.dfy` puts the result bodies together field by field, and
  `EffectResults.dfy` says exactly when each of them can be sealed.
  `RunEndings.dfy` computes how a run ends from the replies alone, without a ledger; every run of the engine ends so,
  unless a result or the receipt cannot be sealed.
- **The second checker** (`Attestation.dfy`): effect order, admission, execution counts, the mutation chain and usage sums
  re-derived from a finished receipt. `AttestationRules.dfy` says on the events of the receipt which statements it accepts
  and what each of its errors means; `RunAttestation.dfy` says exactly which completed runs it accepts. `CollidingRun.dfy`
  runs the engine to a completion that it refuses.
- **The ACP host port** (`AcpHostPort.dfy`, `AcpHostCallers.dfy`, `CompletionRace.dfy`): a step system with any number of
  callers, one worker thread, faults, cancellation and timeouts, what its callers can rely on, and the swap between
  cancellation and the completion claim.
- **The ACP wire protocol** (`AcpWire.dfy`): the shared protocol state as a class proved against a step function.
- **The MCP dispatch boundary** (`McpWire.dfy`, `McpExecutor.dfy`): the locked wire state, and the executor port above it.
- **DSSE** (`Dsse.dfy`) and **catalog rendering** (`Catalog.dfy`).

## How the model reads

- Canonicalisation followed by SHA-256 is one arbitrary function per kind of document. All that is assumed is that its
  output is a well-formed digest (`Contracts.Hashes.WellFormed`); no proof uses injectivity.
- Fixed codes and reasons are an enumeration (`Contracts.Word`). A text is a fixed word, a fixed word followed by
  another text, or any text that spells neither. Decision identifiers are real strings, since their uniqueness is proved.
- Checks return the stable category of the first failure, in the order of the code. Messages and paths are not modelled.
- Counters are natural numbers. Sums are cut or refused at 2^53-1 as in the code; the attestation sums and the MCP
  generation counter also have their 64-bit limits.
- `hide` statements keep definitions out of proofs that do not need them.

## What the proofs found

- **Receipt sealing.** A run can only fail to seal its receipt by having more than 2^53-1 events, and has at most
  `8 * max_effects + 17`. So `max_effects <= (2^53 - 18) / 8` rules the error out before the run starts.
- **Result sealing.** It fails exactly when some executor reply cannot be retained: a not-dispatched error with a blank
  message, a lost response whose own evidence or usage does not fit an unknown outcome, well-formed exit evidence from a
  distrusted executor on a non-process effect, or a trusted report that does not fit its status
  (`EffectResults.ObservationFits`).
- **Attestation.** The second checker does not accept every completed run. The completion decision names the final
  subject's digest where other decisions name an effect, and the order pass skips it but the admission pass does not. A
  completed run is refused when an effect's request digest equals the final subject's digest and the effect was
  requested on another subject (`RunAttestation.CompletedRunAttests`). An executor brings this about by reporting the
  request digest as the digest of the mutated subject (`CollidingRun.RefusedCompletion`).
- **ACP quarantine.** A caller whose wait expired quarantines the port without the lock under which the worker claims. One
  call can still be claimed and executed afterwards, the one whose flags the worker had read
  (`AcpHostPort.QuarantineRevokesOthers`). It is the caller's own, or another caller's if the reply to its own came just
  too late (`AcpHostPort.AnotherCallIsClaimedLate`). No such call is told that it was declined.
- **MCP reports.** The executor port bounds the size of the subject that the host observes after a call, and nothing else.
  The report of a dispatched call is refused, and the run ends without a receipt, exactly when the subject that it
  reports has a blank locator or a malformed digest (`McpExecutor.McpExecutor.DispatchedReportSeals`).
- **ACP order.** A rejected answer to `initialize` leaves the wire state free to send it again
  (`AcpWire.RejectedAnswerReopens`). Only accepted frames are ordered; a rejected incoming frame ends the incoming stream
  and not the outgoing sink.

## Model

| member | source | states |
|---|---|---|
| RunCoordinator.EvaluatePlan | src/lib.rs:160-177 | never asks; allows exactly an exact approval of a well-formed subject digest |
| RunCoordinator.EvaluatePermission | src/lib.rs:179-244 | allows exactly when the policy does not deny and, with a dangerous tag, a wrapper chain or an asking policy, an exact approval is there, or else the policy allows |
| RunCoordinator.EvaluateToolTrust | src/lib.rs:246-275 | never asks; allows exactly a named capability whose own digest is approved |
| RunCoordinator.EvaluateVerification | src/lib.rs:288-316 | allows exactly an independent passing report on the exact subject with valid evidence |
| RunCoordinator.EvaluateRuntime | src/lib.rs:341-375 | allows exactly known usage that projects below the hard stop, with an approval that covers it from the approval threshold on |
| RunCoordinator.EvaluateWorkflow | src/lib.rs:382-436 | each boundary allows exactly under its own code, after all that it needs |
| RunCoordinator.PlanDecides | src/lib.rs:160-177 | the whole decision for every input: invalid, approved exactly, approved for something else, or not approved |
| RunCoordinator.PermissionDecides | src/lib.rs:179-244 | the exact condition of each permission code |
| RunCoordinator.PermissionOutcome | src/lib.rs:179-244 | blocks exactly on invalid input or a denying policy; asks exactly when neither holds and the needed approval or the explicit allow is missing |
| RunCoordinator.ToolTrustDecides | src/lib.rs:246-275 | the whole decision for every input |
| RunCoordinator.VerificationDecides | src/lib.rs:288-316 | the exact condition of each verification code: the first thing that is missing, from the input to the verdict |
| RunCoordinator.RuntimeDecides | src/lib.rs:341-375 | the exact condition of each runtime code, hard stop before approval before warning |
| RunCoordinator.MutationDecides | src/lib.rs:382-436 | a block of any earlier gate dominates an ask of any other, and an ask dominates the allows |
| RunCoordinator.CompletionDecides | src/lib.rs:382-436 | completion needs prior authorisation first and then an allowing verification, each with its own code |
| ConfiguredGates.PlanIsApproved | src/runtime.rs:1784-1791 | the plan gate passes exactly when the run carries an approval |
| ConfiguredGates.PermissionFollowsPolicy | src/runtime.rs:1793-1809 | the permission gate under the configured policy: its whole decision from the policy, its tags, its wrapper chain and its approvals of the very effect |
| ConfiguredGates.ToolTrustFollowsSupport | src/runtime.rs:1811-1837 | the tool gate allows exactly a trusted capability that is pinned with its schema where pins are configured |
| ConfiguredGates.RuntimeFollowsThresholds | src/runtime.rs:1839-1861 | the runtime gate under valid thresholds: its whole decision from the projected cost and the first approval of the very effect |
| ConfiguredGates.MutationFollowsGates | src/runtime.rs:1863-1877 | the mutation boundary follows the three gates before it |
| ConfiguredGates.CompletionFollowsVerification | src/runtime.rs:1879-1887 | the completion boundary follows the authorisation and the verification |
| ConfiguredGates.VerificationFollowsReport | src/runtime.rs:1889-1921 | the verification gate: the first thing that is wrong with a report |
| Text.NonBlankMeans | src/contracts/validation.rs:861-870 | a text is whole exactly when some character of it is no white space |
| Text.DigestMeans | src/contracts/validation.rs:872-885 | a digest is the prefix and 64 lowercase hexadecimal characters |
| Contracts.ValidateRequest | src/contracts/validation.rs:122-258 | accepts exactly the requests of this schema with whole texts, valid subject and capability, distinct supported policies, a safe budget, approvals bound to the subject and verifying evidence types, and names them by their digest |
| Contracts.ValidateEffectRequest | src/contracts/protected_effect/validation.rs:31-98 | accepts exactly the effects of this schema under the run's own identity, capability, policies and budget, with a normalised operation, valid metadata and scopes and distinct approvals bound to the subject, and names them by their digest |
| Contracts.SplitJoins | src/contracts/protected_effect/validation.rs:105-125 | round trip: the segments put together again are the operation, and none holds a separator |
| Contracts.ContainsMeans | src/contracts/protected_effect/validation.rs:196-203 | a host contains a scheme exactly when it can be written around one |
| Refusals.RequestRefusalIsTrue | src/contracts/validation.rs:122-258 | a refused request fails what the category of its refusal demands |
| Refusals.EffectRefusalIsTrue | src/contracts/protected_effect/validation.rs:31-98 | the same for an effect request under a valid run |
| Refusals.ValidRequestMeetsAll | src/contracts/validation.rs:122-258 | the valid requests are those that meet every category |
| Refusals.ValidEffectMeetsAll | src/contracts/protected_effect/validation.rs:31-98 | the valid effects are those that meet every category |
| UsageArithmetic.CountersAreSeparate | src/contracts/validation.rs:799-819 | comparisons, sums and caps treat each counter by itself and all alike |
| UsageArithmetic.Project | src/runtime.rs:2184-2206 | defined exactly when the exact sum is safe, and then equal to it |
| UsageArithmetic.CappedUsage | src/runtime.rs:2193-2210 | capping every sum on the way equals capping the exact total once |
| ReceiptChecker.ValidateReceiptBody | src/contracts/validation.rs:310-673 | the loop with its eight variables computes the replay followed by the final checks, error category included |
| ReceiptChecker.FailurePersists | src/contracts/validation.rs:359-614 | a failing prefix fails every longer ledger in the same way |
| ReceiptTrace.CheckerDecidesLegality | src/contracts/validation.rs:310-851 | the one-pass checker accepts a body exactly when it answers the valid request by digest, every event is legal where it stands, and the terminal status is earned; the specification names no part of the checker |
| ReceiptTrace.HeaderPassesExactly | src/contracts/validation.rs:316-352 | the header checks pass exactly when the request is valid and the body names its schema, identifiers, digest and subject, with a terminal status, a reason, safe usage and events |
| ReceiptTrace.TransitionsAreMoves | src/contracts/validation.rs:821-851 | the transition test is the table of moves of each status |
| Refusals.ReceiptRefusalIsTrue | src/contracts/validation.rs:310-761 | a refused receipt of a valid request fails what the category of its refusal demands of its header, of some event or of its end |
| Refusals.LegalReceiptMeetsAll | src/contracts/validation.rs:310-761 | the legal receipts are those that meet every category |
| ReceiptTrace.ReplayIsLegality | src/contracts/validation.rs:359-614 | a prefix replays exactly when each of its events is legal where it stands, and the variables then describe it |
| ReceiptTrace.CompletionIsLegality | src/contracts/validation.rs:675-725 | the completion checks mean a fresh verification of the final subject followed by its completion decision |
| ReceiptTrace.AuthorizationMeans | src/contracts/validation.rs:727-761 | the decision map authorises exactly what an earlier allow event of that gate, effect and subject authorises |
| ReceiptTrace.AcceptedMutationsChain | src/contracts/validation.rs:499-544 | accepted mutations chain the requested subject to the resulting one |
| ReceiptTrace.AcceptedCompletionIsVerified | src/contracts/validation.rs:675-725 | an accepted completion holds an independent passing verification of the resulting subject, after every mutation and before the completion decision, within budget |
| ReceiptTrace.AcceptedEffectsAreAuthorized | src/contracts/validation.rs:461-544 | every accepted execution and mutation has an earlier allow decision for that effect and the subject of the moment |
| ResultChecker.ValidateEvidence | src/contracts/protected_effect/result_validation.rs:572-592 | the loop accepts exactly well-formed evidence without repetition |
| ResultChecker.VerifiesExactlyWhatSeals | src/contracts/protected_effect/result_validation.rs:62-107 | round trip: a result verifies exactly when it is what sealing its own body returns |
| ResultRules.CheckerDecidesResult | src/contracts/protected_effect/result_validation.rs:36-592 | the checker accepts a result exactly when its request is admissible, it names that request and its digest, cites a decision of fitting gate and outcome about that request and the subject it found, and is a complete attempt or a decline that carries nothing and tells its drift |
| Refusals.ResultRefusalIsTrue | src/contracts/protected_effect/result_validation.rs:36-678 | a refused result of an admissible request fails what the category of its refusal demands |
| Refusals.LegalResultMeetsAll | src/contracts/protected_effect/result_validation.rs:36-678 | the legal results are those that meet every category |
| ResultChecker.SealedAttemptIsRecordable | src/contracts/protected_effect/result_validation.rs:198-451 | a sealed attempt has valid identities, safe usage, the requested subject and, when executed, a post subject |
| ResultChecker.NonExecutionCarriesNothing | src/contracts/protected_effect/result_validation.rs:282-307 | a denied or waiting result carries nothing only dispatch could produce |
| DecisionIds.DecisionId | src/runtime.rs:1456-1461 | an identifier is not blank and its last number is the position of its event |
| DecisionIds.NumberedIsFresh | src/runtime.rs:1452-1461 | an identifier that names the next event was never used before |
| RuntimeModel.BudgetAdmission | src/runtime.rs:1994-2016 | admits exactly when usage plus estimate is safe and within budget in every dimension but cost; the code says which of the two fails |
| RuntimeModel.SanitizeCancellation | src/runtime.rs:1966-1992 | the result can always be recorded, and each part that can be recorded is kept |
| RuntimeModel.ExecutorDecline | src/runtime.rs:2018-2038 | a recordable decision that asks exactly when the executor awaits authority, with its reason as an effect |
| RuntimeModel.NotDispatchedDecision | src/runtime.rs:771-772 | recordable exactly when the executor's message is not blank |
| RuntimeModel.CountAttempt | src/runtime.rs:835-849 | an attempt counts at least one tool call and is otherwise unchanged |
| RuntimeModel.ValidateConfig | src/runtime.rs:1689-1730 | the checks accept exactly the valid configurations |
| RuntimeModel.ValidateSupport | src/runtime.rs:1732-1782 | the checks accept exactly support whose pins, approvals, verifiers and estimate are valid |
| ResultBuilder.EnsureEvidence | src/runtime.rs:2051-2073 | the push when none is there computes the list with the kind ensured |
| ResultBuilder.NonExecution | src/runtime.rs:1185-1219 | the body of a decline, field by field |
| ResultBuilder.Attempt | src/runtime.rs:1326-1361 | the body of a trusted attempt, field by field |
| ResultBuilder.LostResponse | src/runtime.rs:1002-1059 | the body of a lost response: what the port knows, one tool call at least, and evidence of what is missing |
| ResultBuilder.UntrustedReferences | src/runtime.rs:1247-1283 | the evidence of a distrusted attempt, push by push |
| ResultBuilder.Untrusted | src/runtime.rs:1221-1324 | the body of a distrusted attempt, with a substitute executor, capped usage and the usable subject |
| ResultBuilder.Counted | src/runtime.rs:835-849 | the update in place computes the counted attempt |
| ResultBuilder.Distrust | src/runtime.rs:851-858 | the sandbox is judged before the executor |
| EffectResults.SanitizeEvidence | src/runtime.rs:2075-2098 | the loop keeps each usable reference once |
| EffectResults.Sanitize | src/runtime.rs:2075-2098 | what is kept is well formed, distinct, and exactly the evidence that fits an unknown outcome |
| EffectResults.EnsureKind | src/runtime.rs:2062-2073 | adds exactly the missing kind and keeps the evidence well formed |
| EffectResults.NonExecutionSealsExactly | src/runtime.rs:1185-1219 | a decline seals exactly when its texts are not blank and its code tells the truth about drift |
| EffectResults.UntrustedEvidenceIsComplete | src/runtime.rs:1229-1283 | the synthesised evidence has every kind an unknown outcome needs and nothing twice |
| EffectResults.UntrustedSealsExactly | src/runtime.rs:1221-1324 | the sanitised unknown outcome passes the whole result checker, except for well-formed exit evidence on a non-process effect |
| EffectResults.LostResponseSealsExactly | src/runtime.rs:1002-1059 | a lost response seals exactly when the port's own evidence fits an unknown outcome and its usage is safe |
| EffectResults.AttemptSealsExactly | src/contracts/protected_effect/result_validation.rs:198-592 | a trusted report is accepted exactly when its usage is safe, its evidence is well formed, distinct, complete and claims just its own ending, its reason, post subject and exit fit its status, and the effect class agrees |
| AgentLedger.Ledger.constructor | src/runtime.rs:1434-1450 | a new ledger agrees with the checker's initial state |
| AgentLedger.Ledger.AdmissionDecision | src/runtime.rs:1463-1492 | admits exactly the next sequence number within the limit with a new identifier, digest and idempotency key |
| AgentLedger.Ledger.AcceptEffectIdentity | src/runtime.rs:1494-1504 | the identity sets stay those of the accepted effects, which stay distinct and numbered from one |
| AgentLedger.Ledger.Transition | src/runtime.rs:1506-1515 | appends exactly one transition from the current status and stays in step with the checker when it is legal |
| AgentLedger.Ledger.RecordDecision | src/runtime.rs:1531-1552 | appends the decision on the current subject, under a fresh identifier, and notes a mutation authorisation |
| AgentLedger.Ledger.RecordToolExecution | src/runtime.rs:1554-1576 | an authorised execution keeps ledger and checker in step |
| AgentLedger.Ledger.RecordMutation | src/runtime.rs:1578-1593 | an authorised mutation keeps them in step once the subject moves |
| AgentLedger.Ledger.UsageEvent | src/runtime.rs:1614-1622 | records usage unless the latest usage event already says so |
| AgentLedger.Ledger.RecordUsage | src/runtime.rs:1595-1608 | usage stays the capped total of all charges; the reason says exactly whether the sum overflows or exceeds the budget |
| AgentLedger.Ledger.RecordVerification | src/runtime.rs:1624-1633 | a receipt-safe report keeps ledger and checker in step |
| AgentLedger.Ledger.RecordEffectInterruption | src/runtime.rs:1644-1659 | one interruption built from the sealed result |
| AgentLedger.FirstOfKind | src/runtime.rs:2254-2284 | the search returns the first reference of the kind |
| AgentLedger.ArtifactOf | src/runtime.rs:2254-2268 | the artifact that a mutation is recorded with: the first there is, or one that says it is missing |
| AgentLedger.SafeReportIsAccepted | src/runtime.rs:2133-2154 | a report may enter the ledger exactly when the receipt checker accepts its event |
| LedgerFacts.LatestUsage | src/runtime.rs:2240-2245 | the backward search returns the usage on record |
| EffectSteps.AllowedIsAffordable | src/lib.rs:341-375 | admission and an allowing runtime gate bound every dimension, cost below the hard stop |
| EffectSteps.AllowedIsPermitted | src/runtime.rs:607-705 | gates that allow mean that the policy permits the effect, the tool is trusted and pinned, and from the approval threshold on an approval of the effect covers the projected cost |
| EffectSteps.ClearedIsAuthorized | src/runtime.rs:607-763 | after the gates the ledger holds every allow decision that the executor call needs |
| EffectSteps.EstimatedUsageFits | src/runtime.rs:1839-1861 | usage within the estimate neither overflows nor exceeds any budget |
| RunEndings.CompletesExactly | src/runtime.rs:443-1183 | a run ends completed exactly when the plan is approved, the agent finishes, a trusted verifier passes the final subject, the recheck succeeds, both claims are won and the total of all charges is within budget |
| RunEndings.ContinuesExactly | src/runtime.rs:536-969 | a run goes on after a proposal exactly when it is admitted, every gate allows it and the configured executor reports from the requested sandbox that it was executed, within budget |
| RunEndings.VerificationPassesExactly | src/runtime.rs:1061-1113 | verification lets a run go on exactly when a trusted, independent, recordable report passes the subject within budget; such a report always passes the gate |
| RunEndings.EstimateNeverEnds | src/runtime.rs:934-960 | a cleared effect that stays within the estimate never ends a run by what it used |
| RunEngine.FinishedBodyIsAccepted | src/contracts/validation.rs:310-673 | a finished ledger's body is refused exactly when it is too long |
| RunEngine.AgentRunEngine.Finish | src/runtime.rs:1377-1418 | the receipt is accepted; a cancellation, the agent's before the executor's, is recorded and replaces every ending but a completion, an interruption and a wait for authority |
| RunEngine.AgentRunEngine.SealRun | src/runtime.rs:1403-1413 | appends at most the last usage and the terminal status to the ledger, whose receipt is accepted |
| RunEngine.AgentRunEngine.BlockedFromDecision | src/runtime.rs:1363-1375 | ends blocked with the decision's code; an asking decision is not replaced by a cancellation |
| RunEngine.AgentRunEngine.DeclineProtectedEffect | src/runtime.rs:971-1000 | a decline puts its decision on record, retains the result that cites it and ends the run blocked; it fails to seal exactly when its decision has a blank text |
| RunEngine.AgentRunEngine.PassCommonGates | src/runtime.rs:607-718 | permission, tool trust and runtime decide in this order; each decision asked for is on record, and the first that does not allow ends the run with its code and a result that cites it |
| RunEngine.AgentRunEngine.AskGate | src/runtime.rs:607-643 | one gate: its decision is on record; one that does not allow ends the run with its code and a retained result that cites it |
| RunEngine.AgentRunEngine.PassGates | src/runtime.rs:607-763 | the effect is cleared exactly when every gate it needs allows; otherwise the first refusing gate ends the run |
| RunEngine.AgentRunEngine.AdmitEffect | src/runtime.rs:541-605 | what is admitted is valid, on the current subject, next in sequence, new and affordable; anything else ends the run for the first of these that fails |
| RunEngine.AgentRunEngine.NotDispatched | src/runtime.rs:767-782 | ends blocked with the declining decision on record and cited by the retained result, or fails to seal exactly on a blank message |
| RunEngine.AgentRunEngine.LostResponse | src/runtime.rs:783-817 | ends by usage reason or as an unknown outcome with the execution on record and the result retained, or fails to seal exactly when the body is rejected |
| RunEngine.AgentRunEngine.ExecutorDeclined | src/runtime.rs:819-834 | ends blocked with the executor's code, the declining decision on record and its result retained; always seals |
| RunEngine.AgentRunEngine.UntrustedExecution | src/runtime.rs:850-899 | records the attempt and its mutation, retains the sanitised result and fails the run with the reason for the distrust |
| RunEngine.AgentRunEngine.TrustedExecution | src/runtime.rs:900-968 | goes on exactly after an executed result within budget, with the subject moved, usage added and the result retained; otherwise ends as the status or the usage says |
| RunEngine.AgentRunEngine.ConcludeAttempt | src/runtime.rs:936-967 | the status of an attempt ends the run as the endings say, its usage only when the status does not, and an interrupted effect is recorded from its result |
| RunEngine.AgentRunEngine.ReplySealsExactly | src/runtime.rs:767-968 | exactly which executor replies can be retained as a result: those that fit their own kind of answer |
| RunEngine.AgentRunEngine.ExecuteEffect | src/runtime.rs:765-969 | one executor call: the run goes on or ends as the reply determines, and exactly one accepted result is retained unless it cannot be sealed |
| RunEngine.AgentRunEngine.RunningRetainsCalls | src/runtime.rs:961-968 | while a run goes on there is exactly one accepted result for each executor call |
| RunEngine.AgentRunEngine.HandleProtectedEffect | src/runtime.rs:536-969 | every executor call is authorised, for a new effect that the agent proposed and retained as an accepted result; the run continues with exactly one more executed step or ends as the endings say, and fails to seal exactly when the reply does not fit |
| RunEngine.AgentRunEngine.Verify | src/runtime.rs:1061-1113 | goes on exactly with a recorded, trusted, independent passing report on the current subject; a recordable report is on record in any case |
| RunEngine.AgentRunEngine.JudgeReport | src/runtime.rs:1084-1113 | a recordable report of a trusted verifier is on record whatever it says; the run goes on exactly when it also passes the subject |
| RunEngine.AgentRunEngine.RecheckCompletion | src/runtime.rs:1114-1135 | goes on exactly when the recheck succeeds within budget; otherwise ends with its message or the usage reason |
| RunEngine.AgentRunEngine.Complete | src/runtime.rs:1136-1183 | completes exactly when authorised and both claims report no cancellation |
| RunEngine.AgentRunEngine.ClaimCompletion | src/runtime.rs:1147-1169 | nothing is recorded exactly when both claims report no cancellation; otherwise the run ends as the first claim that does not, and a reported cancellation is recorded |
| RunEngine.AgentRunEngine.Plan | src/runtime.rs:456-491 | execution starts after exactly the planning events, with an approval of the current subject; otherwise the run ends as the endings say |
| RunEngine.AgentRunEngine.AskAgent | src/runtime.rs:493-512 | charges the agent's answer; goes on exactly when it succeeds within budget |
| RunEngine.AgentRunEngine.RunSteps | src/runtime.rs:492-533 | the loop ends after at most one more agent step than the effect limit, whatever the agent answers, through the proposals it made and with the ending they determine |
| RunEngine.AgentRunEngine.TakeStep | src/runtime.rs:492-533 | one answer of the agent and all that follows: one more executed effect, or the ending and the charges that the replies determine; an agent that cancels is recorded as the interruption |
| RunEngine.AgentRunEngine.Run | src/runtime.rs:443-534 | for every request, configuration and script: exact errors, an accepted receipt, authorised distinct dispatches of what the agent proposed, each permitted by the policy, on a trusted tool and covered in cost as configured, with one accepted result each, a sealing failure exactly when some reply does not fit, the ending that the replies determine, usage equal to the capped sum of the replies asked for, and a completed run accounted for reply by reply |
| Attestation.CollectOrder | adapters/attestation/src/statement.rs:243-265 | the loop with its set computes the order of first decisions |
| Attestation.ValidateEffects | adapters/attestation/src/statement.rs:235-399 | the loop over the effects computes the specified pass, error included |
| AttestationRules.OrderIsOrderOfEffects | adapters/attestation/src/statement.rs:243-265 | the collected order is the only list of all effects, each once, by first decision |
| AttestationRules.LedgerPassesExactly | adapters/attestation/src/statement.rs:297-371 | an effect passes exactly when the ledger has the cited decision, one execution that names it and carries the digest of the presented result, after every required gate allowed it, and one mutation from its subject to the observed one; a decline has neither |
| AttestationRules.PassIsLegality | adapters/attestation/src/statement.rs:266-392 | the pass over a prefix succeeds exactly when each effect is genuine, next in number, identity and subject, and shown by the ledger |
| AttestationRules.CheckerDecidesStatement | adapters/attestation/src/statement.rs:183-444 | the second checker accepts a statement exactly when its receipt is legal and untampered, its observation fits, and its effects are all those of the ledger in order, each legal, chained to the resulting subject and within the receipt's usage |
| AttestationRules.RefusalIsTrue | adapters/attestation/src/statement.rs:183-444 | whatever error it gives, the fault that the error names is there, behind effects that are all legal |
| RunAttestation.CompletedOrder | adapters/attestation/src/statement.rs:243-265 | the order found in a completed run is the order of its executed effects |
| RunAttestation.AdmissionIs | adapters/attestation/src/statement.rs:401-444 | the gates' decisions admit the execution; an extra decision about another subject is all that can spoil it |
| RunAttestation.LedgerOfStep | adapters/attestation/src/statement.rs:297-371 | what the second checker finds in the ledger about an executed effect |
| RunAttestation.PassOverSteps | adapters/attestation/src/statement.rs:266-396 | the pass over the first effects succeeds exactly when each attests, and then has followed subject, identities and sums |
| RunAttestation.CompletedRunAttests | adapters/attestation/src/statement.rs:235-444 | exactly which completed runs pass order, admission, execution-count, mutation-chain and usage-sum checks |
| RunAttestation.CompletedStatementIsAccepted | adapters/attestation/src/statement.rs:202-233 | the same for a whole statement with a fresh observation of the final subject |
| RunAttestation.CompletedRunIsAttested | src/runtime.rs:536-969 | what the engine completes is accepted by the second checker unless a digest collides |
| CollidingRun.AnyMutationCanCollide | adapters/attestation/src/statement.rs:426-444 | a report for any cleared mutation that is retained and collides with the completion of the subject it leaves |
| CollidingRun.CollidingRunIsRefused | adapters/attestation/src/statement.rs:235-444 | every completed run is refused whose last effect is a mutation that left its own request digest as the subject's |
| CollidingRun.CompleteCollidingRun | src/runtime.rs:443-1183 | under any valid setting whose first proposal is a cleared mutation, a script under which the engine completes with an accepted receipt and the second checker refuses the statement |
| CollidingRun.RefusedCompletion | adapters/attestation/src/statement.rs:426-444 | one such run in full, with no assumption |
| AcpHostPort.StepKeepsInv | adapters/acp/src/lib.rs:883-1033 | what every step of caller, worker and session keeps |
| AcpHostPort.DeclinedNeverExecutes | adapters/acp/src/lib.rs:1005-1033 | a call reported declined never reached the host, before the report or after it |
| AcpHostPort.AttemptedDidExecute | adapters/acp/src/lib.rs:910-940 | a call reported attempted reached the host |
| AcpHostPort.ExecutionsFollowClaims | adapters/acp/src/lib.rs:910-940 | claims are distinct and executions repeat them in order, one behind at most |
| AcpHostPort.ClaimedWithoutFault | adapters/acp/src/lib.rs:910-940 | behind each claim stand three reads of the worker for that call, in this order: no cancellation, no quarantine, and, at the claim, no fault; no fault is recorded from the first read to the claim |
| AcpHostPort.FaultRevokes | adapters/acp/src/lib.rs:910-940 | after a fault no claim is taken |
| AcpHostPort.FlagsRevoke | adapters/acp/src/lib.rs:918-926 | after a quarantine or a cancellation no claim is taken but for one by the call whose flag the worker had read before |
| AcpHostPort.QuarantineRevokesOthers | adapters/acp/src/lib.rs:902-1032 | when a caller quarantines the port, only the call for which the worker had read every flag can still be claimed: its own, which is told an unknown outcome, or, if its own was answered too late, that of another caller; it is its own when no other call is under way, and it is never told a decline |
| AcpHostPort.QuarantineCanComeTooLate | adapters/acp/src/lib.rs:920-1031 | once the worker has read every flag for a call, any caller whose wait has expired can quarantine the port before that call is claimed |
| AcpHostPort.AnotherCallIsClaimedLate | adapters/acp/src/lib.rs:902-993 | a run of 22 steps in which one caller quarantines the port and the call of another is then claimed and executed |
| AcpHostPort.OneCommandInFlight | adapters/acp/src/lib.rs:953-980 | one command at most is being sent, queued or running, and a send finds room |
| AcpHostCallers.LateCallsAreKeptOut | adapters/acp/src/lib.rs:953-980 | a call that enters a quarantined port, or an execution that enters a cancelled one, is never sent, claimed or executed |
| AcpHostCallers.TurnedAwayExactly | adapters/acp/src/lib.rs:953-1020 | exactly when a call that was not sent is turned away; cancellation alone turns no usage call away |
| AcpHostCallers.RepliedInTimeIsTold | adapters/acp/src/lib.rs:980-1033 | a caller that was still waiting when its reply came is told that reply |
| AcpHostCallers.RefusedIsNeverClaimed | adapters/acp/src/lib.rs:917-930 | a command whose deadline has passed, or whose request has no digest, is never claimed or executed |
| AcpHostCallers.CallersAreToldTheirKind | adapters/acp/src/lib.rs:980-1033 | usage calls are told usage and nothing else; whoever is told an unknown outcome has quarantined the port and cancelled the session |
| AcpHostCallers.FlagsAreSetForGood | adapters/acp/src/lib.rs:989-994 | giving up quarantines for good, and cancelling cancels for good |
| CompletionRace.OneWinner | adapters/acp/src/lib.rs:197-212 | one swap wins in any interleaving |
| CompletionRace.WonClaimIsFinal | adapters/acp/src/lib.rs:245-268 | a claim that reports no cancellation has won; no cancel ever wins and no later load reports one |
| CompletionRace.LostClaimIsFinal | adapters/acp/src/lib.rs:245-268 | a claim that reports a cancellation lost to an earlier cancel that stays reported |
| CompletionRace.CompletedRunWonTheRace | src/runtime.rs:1143-1183 | a completed run whose ports share a session won the swap on their one history: no cancel wins, and no later load reports one |
| CompletionRace.CancelledRunIsNotCompleted | adapters/acp/src/lib.rs:197-268 | a run in which a cancel wins does not complete |
| AcpWire.ProtocolState.ValidateMessage | adapters/acp/src/wire.rs:158-389 | the in-place checks compute the step function, also where they reject |
| AcpWire.ProtocolState.ReceiveUpdate | adapters/acp/src/wire.rs:391-444 | the in-place update computes the update function |
| AcpWire.RequestsAreOrdered | adapters/acp/src/wire.rs:274-301 | at every moment initialise, open and prompt were each sent once at most and in order, with one request outstanding per direction |
| AcpWire.CallIdsAreNew | adapters/acp/src/wire.rs:237-241 | incoming identifiers are never reused |
| AcpWire.CallsNameTheSession | adapters/acp/src/wire.rs:217-236 | every accepted call of the agent names the session that the host had asked for and the agent had granted, and a call that wants an answer comes during the prompt |
| AcpWire.ToolsNeverRegress | adapters/acp/src/wire.rs:391-444 | tool statuses never regress and final ones never change |
| AcpWire.TerminalIsFinal | adapters/acp/src/wire.rs:349-361 | the session ends with nothing pending and accepts only cancellations afterwards |
| AcpWire.LimitsHold | adapters/acp/src/wire.rs:189-197 | accepted sequences stay within the message and byte limits |
| AcpWire.RejectedAnswerReopens | adapters/acp/src/wire.rs:311-347 | while initialise is outstanding, a rejected frame makes it acceptable again exactly when that frame answers it |
| McpWire.StepKeepsInv | adapters/mcp/src/transport.rs:127-146 | what every step under the lock keeps |
| McpWire.NoByteAfterFailure | adapters/mcp/src/transport.rs:127-146 | once a failure is recorded no byte of a call frame is written |
| McpWire.StartedIsFinal | adapters/mcp/src/worker.rs:813-830 | the flag read after the failure is final and says whether this call wrote a byte |
| McpWire.NotDispatchedNeverWrites | adapters/mcp/src/worker.rs:706-831 | a call reported not dispatched wrote no byte and never will |
| McpWire.WrittenUnderDiscoveredGeneration | adapters/mcp/src/transport.rs:130-143 | every call byte is written without a failure and with the inventory unchanged since the discovery of the latest call begun |
| McpWire.WritesExactly | adapters/mcp/src/transport.rs:127-146 | a poll writes exactly when no failure is recorded and the generation is that of the latest call, whichever call the frame belongs to; after drift it records the failure instead |
| McpWire.DiscoveredUnchanged | adapters/mcp/src/worker.rs:493-612 | what was discovered was read and confirmed while the inventory did not change |
| McpWire.BegunCallIsHealthy | adapters/mcp/src/worker.rs:706-722 | a call begins only under such a discovery, after the wire was found healthy once more |
| McpWire.AcceptedIsHealthy | adapters/mcp/src/worker.rs:735-750 | an answer is accepted only after the wire was found healthy, and under the generation of the discovery |
| McpWire.FailedWireBeginsNothing | adapters/mcp/src/worker.rs:493-497 | on a failed wire an idle session begins no discovery and no call |
| McpWire.ReportedExactly | adapters/mcp/src/worker.rs:813-830 | a call that ends in error is reported as dispatched exactly when a byte was written since it began |
| McpExecutor.Reconcile | adapters/mcp/src/lib.rs:728-797 | the overriding assignments compute the outcome by cases |
| McpExecutor.McpExecutor.CollectEvidence | adapters/mcp/src/lib.rs:857-922 | the pushes compute the evidence that the call, its subject and its outcome call for |
| McpExecutor.McpExecutor.Report | adapters/mcp/src/lib.rs:798-947 | the report of a call: reconciled cost and tokens, elapsed time and one tool call when dispatched, and its evidence |
| McpExecutor.UndispatchedNeverWrites | adapters/mcp/src/worker.rs:706-831 | a report that nothing was dispatched is true at every moment of every extension of the wire run behind it |
| McpExecutor.McpExecutor.NoNameIsWrittenTwice | adapters/mcp/src/lib.rs:576-583 | on one wire shared by all calls, and however it goes on, the effects of which a byte is written are remembered and have pairwise different identifiers and idempotency keys |
| McpExecutor.McpExecutor.ExecuteEffect | adapters/mcp/src/lib.rs:524-948 | on any extension of the shared wire: an attempted effect is refused, one that may have been dispatched is remembered, no call is begun when the result is an error, and retained bytes stay within their limit |
| McpExecutor.McpExecutor.Execute | adapters/mcp/src/lib.rs:951-968 | on any extension of the shared wire: every error is labelled before dispatch, and no call is begun when one is returned |
| McpExecutor.McpExecutor.DispatchedReportSeals | adapters/mcp/src/lib.rs:798-947 | a dispatched call's report is trusted, and passes the result checker as the engine seals it exactly when the subject that it reports, if any, is valid |
| McpExecutor.McpExecutor.BlankLocatorIsRefused | adapters/mcp/src/lib.rs:752-762 | after a dispatched mutation an observed subject without a locator makes a report that cannot be retained |
| Dsse.EncodingIsInjective | adapters/attestation/src/dsse.rs:63-83 | equal messages mean equal payload types and payload bytes |
| Dsse.CheckSignature | adapters/attestation/src/dsse.rs:131-156 | a signature passes under a key exactly when the host verifies it under that key, within the limits on hint, encoding, signature and key |
| Dsse.SignedVerifies | adapters/attestation/src/dsse.rs:84-107 | round trip: what a signer that the host agrees with can sign, the host verifies, with that payload and that key alone |
| Dsse.VerifySignatures | adapters/attestation/src/dsse.rs:127-157 | succeeds exactly when every signature verifies under keys with distinct fingerprints |
| Dsse.Verify | adapters/attestation/src/dsse.rs:109-159 | exactly which envelopes verify, over the encoding of their own payload |
| Catalog.StuckReachesCycle | examples/generate-contract-artifacts/catalog.rs:476-503 | artifacts that wait for each other reach a cycle |
| Catalog.OrderedReachesNoCycle | examples/generate-contract-artifacts/catalog.rs:476-503 | a rendered artifact reaches no cycle |
| Catalog.Render | examples/generate-contract-artifacts/catalog.rs:467-527 | rendering ends; everything is rendered after its dependencies exactly when no builder refuses in this order and the graph is acyclic, and what is left is exactly what reaches a cycle or a refusal |
| Catalog.DeclarationErrors | examples/generate-contract-artifacts/catalog.rs:703-773 | each error is reported exactly when the artifact has its fault; none exactly when it declares its dependencies, its schema and what its meaning refers to |
| Catalog.RenderCatalog | examples/generate-contract-artifacts/catalog.rs:460-527 | an invalid catalog is refused, a valid one rendered as above |

## Left out

- Process launch, pipes, containers, file hashing and path canonicalisation: operating-system behaviour.
- JSON parsing, canonicalisation, SHA-256, base64, signatures and JSON Schema: gate inputs and frames are typed, and the rest are arbitrary functions.
- Error messages and paths: an invalid effect request ends the run with its fixed code alone, without the message that follows it in the code.
- Clocks: deadlines are inputs or nondeterministic steps.
- Adapter composition, scripts, fixtures, command lines and the stdio runtime subject: one instance of the arbitrary ports.
- Attestation statement header, versions, snapshots and retained blobs: lookups and size limits.
- Attestation of runs that did not complete: such runs are rejected in cases such as a stale-subject decline.
- RunEngine.AgentRunEngine.Run: an adaptive port is covered by the script of the replies it gave; the context passed to the ports is not modelled.
- AcpHostPort.StepKeepsInv: the answers to usage calls are not distinguished.
- AcpWire.ProtocolState.ValidateMessage: how a line parses and matches its schema is part of the frame; trace and digest evidence is not kept.
- McpWire.WrittenUnderDiscoveredGeneration: a byte of a frame left over from an earlier call is not written under that call's own discovery, since the code checks the latest call's; pending requests, pings and discovery pages are not modelled.
- McpExecutor.McpExecutor.ExecuteEffect: preparation and the bytes it retains are not modelled, record sizes are inputs, serialisation is total, and a reason is not cut to 512 printable characters.
- Catalog.Render: a builder includes the schema and meaning checks of its artifact; the final sort of the rendered artifacts and the texts of problems are not modelled.
- Catalog.RenderCatalog: names, versions, path placement and duplicate registration are not checked; the registry has one artifact per path.

/** The checker of one Protected Effect Result. */
module ResultChecker {
  import opened Text
  import opened Contracts
  import opened UsageArithmetic

  predicate EffectEvidenceIsValid(e: EffectEvidence) {
    IsDigest(e.digest) && NonBlankOption(e.locator)
  }

  /** The categories that appear in a list of evidence. */
  function Kinds(evidence: seq<EffectEvidence>): set<EffectEvidenceType> {
    set e | e in evidence :: e.evidenceType
  }

  predicate HasKind(evidence: seq<EffectEvidence>, kind: EffectEvidenceType) {
    kind in Kinds(evidence)
  }

  predicate HasNoKind(evidence: seq<EffectEvidence>, kinds: set<EffectEvidenceType>) {
    Kinds(evidence) !! kinds
  }

  function CheckEvidenceItem(e: EffectEvidence, earlier: seq<EffectEvidence>): Check {
    Then(CheckDigest(e.digest),
    Then(if e.locator.Some? then CheckText(e.locator.value) else None,
         Require(e !in earlier, InvalidContract)))
  }

  function CheckEffectEvidence(evidence: seq<EffectEvidence>): (c: Check)
    ensures c.None? <==> (forall e | e in evidence :: EffectEvidenceIsValid(e)) && IsUnique(evidence)
  {
    if evidence == [] then None
    else
      var last := |evidence| - 1;
      assert forall e :: e in evidence <==> e in evidence[..last] || e == evidence[last];
      assert IsUnique(evidence) <==> IsUnique(evidence[..last]) && evidence[last] !in evidence[..last];
      Then(CheckEffectEvidence(evidence[..last]), CheckEvidenceItem(evidence[last], evidence[..last]))
  }

  /** The checker's evidence loop, with its set of identities already seen. */
  method ValidateEvidence(evidence: seq<EffectEvidence>) returns (result: Check)
    ensures result == CheckEffectEvidence(evidence)
  {
    var identities: set<EffectEvidence> := {};
    var index := 0;
    while index < |evidence|
      invariant 0 <= index <= |evidence|
      invariant identities == set e | e in evidence[..index]
      invariant CheckEffectEvidence(evidence[..index]).None?
    {
      var reference := evidence[index];
      assert evidence[..index + 1][..index] == evidence[..index];
      result := Then(CheckDigest(reference.digest), if reference.locator.Some? then CheckText(reference.locator.value) else None);
      if result.None? && reference in identities {
        result := Some(InvalidContract);
      }
      if result.Some? {
        assert result == CheckEffectEvidence(evidence[..index + 1]);
        EvidenceFailurePersists(evidence, index + 1);
        return;
      }
      identities := identities + {reference};
      index := index + 1;
    }
    assert evidence[..index] == evidence;
    result := None;
  }

  lemma {:induction false} EvidenceFailurePersists(evidence: seq<EffectEvidence>, n: nat)
    requires n <= |evidence| && CheckEffectEvidence(evidence[..n]).Some?
    ensures CheckEffectEvidence(evidence) == CheckEffectEvidence(evidence[..n])
    decreases |evidence|
  {
    if n == |evidence| {
      assert evidence[..n] == evidence;
    } else {
      var shorter := evidence[..|evidence| - 1];
      assert shorter[..n] == evidence[..n];
      EvidenceFailurePersists(shorter, n);
    }
  }

  function RequireKind(evidence: seq<EffectEvidence>, kind: EffectEvidenceType): Check {
    Require(HasKind(evidence, kind), InvalidContract)
  }

  function RejectKinds(evidence: seq<EffectEvidence>, kinds: set<EffectEvidenceType>): Check {
    Require(HasNoKind(evidence, kinds), InvalidContract)
  }

  function CheckResultIdentity(request: EffectRequest, effectDigest: string, body: ResultBody): Check {
    Then(Require(body.schemaVersion == PROTECTED_EFFECT_RESULT_SCHEMA, UnsupportedSchema),
    Then(CheckText(body.effectId),
    Then(Require(body.effectId == request.effectId, RequestMismatch),
    Then(CheckSafe(body.effectSequence),
    Then(Require(body.effectSequence != 0 && body.effectSequence == request.effectSequence, RequestMismatch),
    Then(CheckText(body.runId),
    Then(Require(body.runId == request.runId, RequestMismatch),
    Then(CheckDigest(body.runRequestDigest),
    Then(Require(body.runRequestDigest == request.runRequestDigest, RequestMismatch),
    Then(CheckDigest(body.effectDigest),
         Require(body.effectDigest == effectDigest, RequestMismatch)))))))))))
  }

  function CheckObservedIdentities(body: ResultBody): Check {
    Then(CheckSubject(body.preSubject),
    Then(CheckIdentity(body.capability),
    Then(if body.toolSchemaDigest.Some? then CheckDigest(body.toolSchemaDigest.value) else None,
         if body.postSubject.Some? then CheckSubject(body.postSubject.value) else None)))
  }

  function CheckCitedDecision(effectDigest: string, body: ResultBody): Check {
    var cited := body.cited;
    Then(CheckText(cited.decisionId),
    Then(CheckDigest(cited.effectDigest),
    Then(Require(cited.effectDigest == effectDigest, RequestMismatch),
    Then(CheckDigest(cited.subjectDigest),
    Then(Require(cited.subjectDigest == body.preSubject.digest, RequestMismatch),
    Then(CheckPhrase(cited.decision.code),
    Then(CheckPhrases(cited.decision.effects),
         Require(body.status.IsAttempt() ==> cited.gate.PermissionGate?, UnauthorizedEffect))))))))
  }

  /** An effect that is no process has no exit and no evidence of one. */
  function CheckOperationSpecific(request: EffectRequest, body: ResultBody): Check {
    if request.family.Process? then None
    else Then(Require(body.exit.None?, InvalidContract), RejectKinds(body.evidence, {ExitEvidence}))
  }

  function DriftReason(subjectDrift: bool, schemaDrift: bool): Phrase
    requires subjectDrift || schemaDrift
  {
    Fixed(if subjectDrift && schemaDrift then SubjectAndSchemaDrift else if subjectDrift then StaleSubject else CapabilitySchemaDrift)
  }

  function CheckDrift(body: ResultBody, subjectDrift: bool, schemaDrift: bool): Check {
    if !subjectDrift && !schemaDrift then
      Require(body.reason !in {Some(Fixed(StaleSubject)), Some(Fixed(CapabilitySchemaDrift)), Some(Fixed(SubjectAndSchemaDrift))}, InvalidContract)
    else
      Then(Require(body.status.Denied?, RequestMismatch),
      Then(Require(body.reason == Some(DriftReason(subjectDrift, schemaDrift)), InvalidContract),
      Then(if subjectDrift then RequireKind(body.evidence, SubjectObservation) else None,
           if schemaDrift then RequireKind(body.evidence, CapabilitySchema) else None)))
  }

  function CheckReason(body: ResultBody): Check {
    if body.reason.None? then Some(InvalidContract) else CheckPhrase(body.reason.value)
  }

  function CheckAttemptCommon(request: EffectRequest, body: ResultBody): Check {
    Then(Require(body.executor.Some?, InvalidContract),
    Then(if body.executor.Some? then CheckIdentity(body.executor.value) else None,
    Then(RequireKind(body.evidence, ExecutorEvidence),
    Then(Require(body.sandboxProfile.Some?, InvalidContract),
    Then(if body.sandboxProfile.Some? then CheckIdentity(body.sandboxProfile.value) else None,
    Then(Require(body.sandboxProfile == Some(request.sandboxProfile), RequestMismatch),
    Then(RequireKind(body.evidence, SandboxEvidence),
         RequireKind(body.evidence, UsageEvidence))))))))
  }

  function CheckExit(exit: EffectExit): Check {
    if exit.ExitSignal? then CheckText(exit.signal) else None
  }

  function CheckKnownPostEffect(request: EffectRequest, body: ResultBody): Check {
    if body.postSubject.None? then Some(InvalidContract)
    else
      Then(RequireKind(body.evidence, SubjectObservation),
      Then(if request.effectClass.ObservationEffect?
           then Require(body.postSubject.value.digest == request.subject.digest, InvalidContract)
           else Then(RequireKind(body.evidence, MutationEvidence), RequireKind(body.evidence, ArtifactChange)),
           if request.family.Process? && body.status in {Executed, EffectFailed} then
             if body.exit.None? then Some(InvalidContract)
             else Then(CheckExit(body.exit.value), RequireKind(body.evidence, ExitEvidence))
           else if request.family.Process? && body.exit.Some? then
             Then(CheckExit(body.exit.value), RequireKind(body.evidence, ExitEvidence))
           else None))
  }

  function CheckExecuted(request: EffectRequest, body: ResultBody): Check {
    Then(Require(body.reason.None?, InvalidContract),
    Then(CheckAttemptCommon(request, body),
    Then(CheckKnownPostEffect(request, body),
         RejectKinds(body.evidence, {FailureEvidence, InterruptedEvidence, UnknownOutcomeEvidence}))))
  }

  function CheckNonExecution(body: ResultBody): Check {
    Then(CheckReason(body),
         Require(
           && body.postSubject.None? && body.exit.None? && body.usage == ZERO_USAGE
           && body.executor.None? && body.sandboxProfile.None?
           && Kinds(body.evidence) <= {SubjectObservation, CapabilitySchema}, UnauthorizedEffect))
  }

  function CheckKnownAttempt(request: EffectRequest, body: ResultBody, required: EffectEvidenceType, rejected: set<EffectEvidenceType>): Check {
    Then(CheckReason(body),
    Then(CheckAttemptCommon(request, body),
    Then(CheckKnownPostEffect(request, body),
    Then(RequireKind(body.evidence, required),
         RejectKinds(body.evidence, rejected)))))
  }

  function CheckUnknownAttempt(request: EffectRequest, body: ResultBody): Check {
    Then(CheckReason(body),
    Then(CheckAttemptCommon(request, body),
    Then(RequireKind(body.evidence, UnknownOutcomeEvidence),
    Then(RejectKinds(body.evidence, {FailureEvidence, InterruptedEvidence}),
    Then(Require(body.exit.None?, InvalidContract),
         if body.postSubject.Some? then CheckKnownPostEffect(request, body) else None)))))
  }

  function ExpectedOutcome(status: ExecutionStatus): Outcome {
    if status.AuthorityAwaited? then Ask else if status.Denied? then Block else Allow
  }

  function CheckStatusMatrix(request: EffectRequest, body: ResultBody): Check {
    if body.cited.decision.outcome != ExpectedOutcome(body.status) then
      Some(if body.status.IsAttempt() then UnauthorizedEffect else InvalidContract)
    else
      match body.status
      case Executed => CheckExecuted(request, body)
      case AuthorityAwaited => CheckNonExecution(body)
      case Denied => CheckNonExecution(body)
      case EffectFailed => CheckKnownAttempt(request, body, FailureEvidence, {InterruptedEvidence, UnknownOutcomeEvidence})
      case EffectInterrupted => CheckKnownAttempt(request, body, InterruptedEvidence, {FailureEvidence, UnknownOutcomeEvidence})
      case UnknownOutcome => CheckUnknownAttempt(request, body)
  }

  /** The checks of a result body against a request already known to be admissible. */
  function CheckBound(request: EffectRequest, effectDigest: string, body: ResultBody): Check {
    Then(CheckResultIdentity(request, effectDigest, body),
    Then(CheckObservedIdentities(body),
    Then(CheckCitedDecision(effectDigest, body),
    Then(CheckUsage(body.usage),
    Then(CheckEffectEvidence(body.evidence),
    Then(CheckOperationSpecific(request, body),
    Then(Require(body.capability == request.capability, RequestMismatch),
    Then(CheckDrift(body, body.preSubject != request.subject, body.toolSchemaDigest != request.toolSchemaDigest),
         CheckStatusMatrix(request, body)))))))))
  }

  function CheckResultBody(support: ContractSupport, run: AgentRunRequest, request: EffectRequest, body: ResultBody): Check {
    Then(CheckEffectRequest(support, run, request), CheckBound(request, support.hashes.effect(request), body))
  }

  /** Sealing checks the body and addresses it by content. */
  function SealResult(support: ContractSupport, run: AgentRunRequest, request: EffectRequest, body: ResultBody): (sealed: Result<EffectResult, ErrorCode>)
    ensures sealed.Success? <==> CheckResultBody(support, run, request, body).None?
    ensures sealed.Success? ==> sealed.value == EffectResult(support.hashes.result(body), body)
    ensures sealed.Success? && support.hashes.WellFormed() ==> VerifyResult(support, run, request, sealed.value)
  {
    var c := CheckResultBody(support, run, request, body);
    if c.Some? then Failure(c.value) else Success(EffectResult(support.hashes.result(body), body))
  }

  /** Verifying recomputes the digest and repeats the checks. */
  function VerifyResult(support: ContractSupport, run: AgentRunRequest, request: EffectRequest, result: EffectResult): bool {
    && IsDigest(result.digest)
    && support.hashes.result(result.body) == result.digest
    && CheckResultBody(support, run, request, result.body).None?
  }

  /** Round trip: a result verifies exactly when it is what sealing its own body returns. */
  lemma VerifiesExactlyWhatSeals(support: ContractSupport, run: AgentRunRequest, request: EffectRequest, result: EffectResult)
    requires support.hashes.WellFormed()
    ensures VerifyResult(support, run, request, result) <==> SealResult(support, run, request, result.body) == Success(result)
  {
    hide CheckResultBody, IsDigest;
  }

  /** What a sealed attempt guarantees to the ledger that records it. */
  predicate AttemptIsRecordable(run: AgentRunRequest, request: EffectRequest, body: ResultBody) {
    && body.status.IsAttempt()
    && UsageIsSafe(body.usage)
    && (forall e | e in body.evidence :: EffectEvidenceIsValid(e))
    && (body.postSubject.Some? ==> SubjectIsValid(body.postSubject.value))
    && (body.status.Executed? ==> body.postSubject.Some?)
    && body.executor.Some? && IdentityIsValid(body.executor.value)
    && (body.reason.Some? ==> PhraseIsNonBlank(body.reason.value))
    && (body.status.EffectInterrupted? ==> body.reason.Some?)
    && body.preSubject == request.subject
    && body.capability == request.capability
  }

  lemma SealedAttemptIsRecordable(support: ContractSupport, run: AgentRunRequest, request: EffectRequest, body: ResultBody)
    requires CheckResultBody(support, run, request, body).None? && body.status.IsAttempt()
    ensures AttemptIsRecordable(run, request, body)
  {
  }

  /** A result that says nothing was dispatched carries nothing that only dispatch could produce. */
  lemma NonExecutionCarriesNothing(support: ContractSupport, run: AgentRunRequest, request: EffectRequest, body: ResultBody)
    requires CheckResultBody(support, run, request, body).None? && !body.status.IsAttempt()
    ensures body.postSubject.None? && body.exit.None? && body.executor.None? && body.sandboxProfile.None? && body.usage == ZERO_USAGE
    ensures HasNoKind(body.evidence, {ExecutorEvidence, SandboxEvidence, UsageEvidence, MutationEvidence, ArtifactChange, ExitEvidence, OutputEvidence})
    ensures !body.cited.decision.outcome.Allow?
  {
  }
}

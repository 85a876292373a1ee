/** When a Protected Effect Result is acceptable, stated without the checker's steps. */
module ResultRules {
  import opened Text
  import opened Contracts
  import opened UsageArithmetic
  import opened RunCoordinator
  import opened RuntimeModel
  import opened ResultChecker
  import opened EffectResults

  /** The result names this very request. */
  predicate NamesRequest(support: ContractSupport, request: EffectRequest, body: ResultBody) {
    && body.schemaVersion == PROTECTED_EFFECT_RESULT_SCHEMA
    && body.effectId == request.effectId && body.effectSequence == request.effectSequence
    && body.runId == request.runId && body.runRequestDigest == request.runRequestDigest
    && body.capability == request.capability
    && body.effectDigest == support.hashes.effect(request) && IsDigest(body.effectDigest)
  }

  /** It cites a decision about this request and the subject it found: an allow of the permission gate for an
      attempt, an ask for a wait and a block for a denial. */
  predicate CitesFittingDecision(support: ContractSupport, request: EffectRequest, body: ResultBody) {
    var cited := body.cited;
    && NonBlank(cited.decisionId)
    && cited.effectDigest == support.hashes.effect(request)
    && cited.subjectDigest == body.preSubject.digest
    && PhraseIsNonBlank(cited.decision.code) && (forall p | p in cited.decision.effects :: PhraseIsNonBlank(p))
    && match body.status
       case AuthorityAwaited => cited.decision.outcome == Ask
       case Denied => cited.decision.outcome == Block
       case _ => cited.gate == PermissionGate && cited.decision.outcome == Allow
  }

  /** What the body says was observed. */
  function ObservationOf(body: ResultBody): Observation {
    Observation(body.status, body.postSubject, body.exit, body.usage, body.executor, body.sandboxProfile, body.reason, body.evidence)
  }

  /** An attempt ran on the requested subject and schema, in the requested sandbox, and reports what its status and class require. */
  predicate AttemptIsLegal(request: EffectRequest, body: ResultBody) {
    && body.preSubject == request.subject && body.toolSchemaDigest == request.toolSchemaDigest
    && body.executor.Some? && IdentityIsValid(body.executor.value)
    && body.sandboxProfile == Some(request.sandboxProfile)
    && ObservationFits(request, ObservationOf(body))
  }

  /** A drift of subject or schema is denied under its own name and with evidence; nothing else is called so. */
  predicate DriftIsTold(request: EffectRequest, body: ResultBody) {
    var moved, redefined := body.preSubject != request.subject, body.toolSchemaDigest != request.toolSchemaDigest;
    var observed := set e | e in body.evidence :: e.evidenceType;
    if moved && redefined then
      body.status == Denied && body.reason == Some(Fixed(SubjectAndSchemaDrift)) && {SubjectObservation, CapabilitySchema} <= observed
    else if moved then
      body.status == Denied && body.reason == Some(Fixed(StaleSubject)) && SubjectObservation in observed
    else if redefined then
      body.status == Denied && body.reason == Some(Fixed(CapabilitySchemaDrift)) && CapabilitySchema in observed
    else
      body.reason !in {Some(Fixed(StaleSubject)), Some(Fixed(CapabilitySchemaDrift)), Some(Fixed(SubjectAndSchemaDrift))}
  }

  /** A decline has a reason, tells a drift, and carries nothing that only dispatch could produce. */
  predicate DeclineIsLegal(request: EffectRequest, body: ResultBody) {
    && SubjectIsValid(body.preSubject)
    && (body.toolSchemaDigest.Some? ==> IsDigest(body.toolSchemaDigest.value))
    && body.reason.Some? && PhraseIsNonBlank(body.reason.value)
    && body.postSubject.None? && body.exit.None? && body.executor.None? && body.sandboxProfile.None?
    && body.usage.cost == body.usage.elapsed == body.usage.tokens == body.usage.toolCalls == 0
    && (forall e | e in body.evidence :: IsDigest(e.digest) && NonBlankOption(e.locator) && e.evidenceType in {SubjectObservation, CapabilitySchema})
    && IsUnique(body.evidence)
    && DriftIsTold(request, body)
  }

  predicate ResultIsLegal(support: ContractSupport, run: AgentRunRequest, request: EffectRequest, body: ResultBody) {
    && EffectIsValid(support, run, request)
    && NamesRequest(support, request, body)
    && CitesFittingDecision(support, request, body)
    && if body.status in {AuthorityAwaited, Denied} then DeclineIsLegal(request, body) else AttemptIsLegal(request, body)
  }

  // ---- The checker's parts ----

  lemma IdentityPassesExactly(support: ContractSupport, run: AgentRunRequest, request: EffectRequest, body: ResultBody)
    requires EffectIsSound(run, request)
    ensures CheckResultIdentity(request, support.hashes.effect(request), body).None? && body.capability == request.capability <==>
            NamesRequest(support, request, body)
  {
    hide NonBlank, IsDigest, SubjectIsValid, IdentityIsValid;
  }

  lemma CitedPassesExactly(support: ContractSupport, request: EffectRequest, body: ResultBody)
    requires IsDigest(support.hashes.effect(request)) && SubjectIsValid(body.preSubject)
    ensures CheckCitedDecision(support.hashes.effect(request), body).None? && body.cited.decision.outcome == ExpectedOutcome(body.status) <==>
            CitesFittingDecision(support, request, body)
  {
    hide NonBlank, IsDigest, PhraseIsNonBlank;
  }

  lemma EvidencePassesExactly(evidence: seq<EffectEvidence>)
    ensures CheckEffectEvidence(evidence).None? <==> (forall e | e in evidence :: IsDigest(e.digest) && NonBlankOption(e.locator)) && IsUnique(evidence)
  {
    hide CheckEffectEvidence, IsDigest, NonBlankOption;
    assert forall e | e in evidence :: EffectEvidenceIsValid(e) <==> IsDigest(e.digest) && NonBlankOption(e.locator);
  }

  /** The checks that remain once the body names the request and cites a fitting decision. */
  predicate RestPasses(request: EffectRequest, body: ResultBody) {
    && CheckObservedIdentities(body).None?
    && UsageIsSafe(body.usage)
    && CheckEffectEvidence(body.evidence).None?
    && CheckOperationSpecific(request, body).None?
    && CheckDrift(body, body.preSubject != request.subject, body.toolSchemaDigest != request.toolSchemaDigest).None?
    && CheckStatusMatrix(request, body).None?
  }

  lemma BodyPassesInParts(support: ContractSupport, run: AgentRunRequest, request: EffectRequest, body: ResultBody)
    requires CheckEffectRequest(support, run, request).None?
    ensures CheckResultBody(support, run, request, body).None? <==>
            && CheckResultIdentity(request, support.hashes.effect(request), body).None? && body.capability == request.capability
            && CheckCitedDecision(support.hashes.effect(request), body).None?
            && RestPasses(request, body)
  {
    hide CheckEffectRequest, CheckResultIdentity, CheckCitedDecision, CheckObservedIdentities, CheckEffectEvidence, CheckOperationSpecific, CheckDrift, CheckStatusMatrix;
  }

  lemma MatrixExpectsOutcome(request: EffectRequest, body: ResultBody)
    requires RestPasses(request, body)
    ensures body.cited.decision.outcome == ExpectedOutcome(body.status)
  {
    hide CheckExecuted, CheckNonExecution, CheckKnownAttempt, CheckUnknownAttempt, CheckObservedIdentities, CheckEffectEvidence, CheckDrift;
  }

  lemma DeclinePassesExactly(request: EffectRequest, body: ResultBody)
    requires body.status in {AuthorityAwaited, Denied} && IdentityIsValid(body.capability)
    requires body.cited.decision.outcome == ExpectedOutcome(body.status)
    ensures RestPasses(request, body) <==> DeclineIsLegal(request, body)
  {
    hide CheckEffectEvidence, IsDigest, NonBlank, SubjectIsValid, IdentityIsValid;
    EvidencePassesExactly(body.evidence);
    var allowed := {SubjectObservation, CapabilitySchema};
    assert Kinds(body.evidence) == set e | e in body.evidence :: e.evidenceType;
    assert Kinds(body.evidence) <= allowed <==> forall e | e in body.evidence :: e.evidenceType in allowed by {
      assert forall e | e in body.evidence :: e.evidenceType in Kinds(body.evidence);
    }
    assert CheckStatusMatrix(request, body) == CheckNonExecution(body);
    if CheckNonExecution(body).None? {
      assert ExitEvidence !in Kinds(body.evidence);
      assert CheckOperationSpecific(request, body).None?;
    }
    assert CheckDrift(body, body.preSubject != request.subject, body.toolSchemaDigest != request.toolSchemaDigest).None? <==> DriftIsTold(request, body);
    assert body.usage == ZERO_USAGE <==> body.usage.cost == body.usage.elapsed == body.usage.tokens == body.usage.toolCalls == 0;
  }

  lemma AttemptPassesExactly(request: EffectRequest, body: ResultBody)
    requires body.status !in {AuthorityAwaited, Denied} && IdentityIsValid(body.capability) && body.cited.decision.outcome.Allow?
    requires SubjectIsValid(request.subject) && IdentityIsValid(request.sandboxProfile)
    requires request.toolSchemaDigest.Some? ==> IsDigest(request.toolSchemaDigest.value)
    ensures RestPasses(request, body) <==> AttemptIsLegal(request, body)
  {
    hide CheckEffectEvidence, IsDigest, NonBlank, SubjectIsValid, IdentityIsValid, CheckOperationSpecific, CheckStatusMatrix;
    hide Kinds, ExitFits;
    EvidencePassesExactly(body.evidence);
    assert body.status.IsAttempt();
    if CheckStatusMatrix(request, body).None? {
      AttemptNamesPlace(request, body);
    }
    if AttemptIsLegal(request, body) || RestPasses(request, body) {
      StatusMatrixPassesExactly(request, body, ObservationOf(body));
    }
  }

  /** An attempt that passes names its executor and the requested sandbox. */
  lemma AttemptNamesPlace(request: EffectRequest, body: ResultBody)
    requires body.status.IsAttempt() && CheckStatusMatrix(request, body).None?
    ensures body.executor.Some? && IdentityIsValid(body.executor.value) && body.sandboxProfile == Some(request.sandboxProfile)
  {
    hide CheckKnownPostEffect, Kinds;
  }

  lemma SubjectIsChecked(run: AgentRunRequest, request: EffectRequest, body: ResultBody)
    requires EffectIsSound(run, request)
    ensures RestPasses(request, body) || AttemptIsLegal(request, body) || DeclineIsLegal(request, body) ==> SubjectIsValid(body.preSubject)
  {
    hide CheckStatusMatrix, CheckEffectEvidence, CheckOperationSpecific, CheckDrift, ObservationFits, DriftIsTold, IdentityIsValid, IsDigest, NonBlank;
  }

  /** The checker accepts a result exactly when it is legal. */
  lemma CheckerDecidesResult(support: ContractSupport, run: AgentRunRequest, request: EffectRequest, body: ResultBody)
    ensures CheckResultBody(support, run, request, body).None? <==> ResultIsLegal(support, run, request, body)
  {
    hide CheckEffectRequest, EffectIsValid, CheckResultIdentity, CheckCitedDecision, RestPasses, DeclineIsLegal, AttemptIsLegal, IsDigest, NonBlank;
    assert ValidateEffectRequest(support, run, request).Success? <==> EffectIsValid(support, run, request);
    if CheckEffectRequest(support, run, request).None? {
      BodyPassesInParts(support, run, request, body);
      IdentityPassesExactly(support, run, request, body);
      SubjectIsChecked(run, request, body);
      if NamesRequest(support, request, body) && SubjectIsValid(body.preSubject) {
        CitedPassesExactly(support, request, body);
        if RestPasses(request, body) {
          MatrixExpectsOutcome(request, body);
        }
        if body.cited.decision.outcome == ExpectedOutcome(body.status) {
          if body.status in {AuthorityAwaited, Denied} {
            DeclinePassesExactly(request, body);
          } else {
            AttemptPassesExactly(request, body);
          }
        }
      }
    }
  }
}

/** How the engine puts a result together: the bodies field by field, and their evidence piece by piece. */
module ResultBuilder {
  import opened Text
  import opened Contracts
  import opened UsageArithmetic
  import opened RunCoordinator
  import opened RuntimeModel
  import opened ResultChecker
  import opened EffectResults

  /** Adds evidence of a kind when the list has none. */
  method EnsureEvidence(hashes: Hashes, evidence: seq<EffectEvidence>, kind: EffectEvidenceType, name: string) returns (ensured: seq<EffectEvidence>)
    ensures ensured == EnsureKind(hashes, evidence, kind, name)
  {
    hide IsKept, IsUnique, EffectEvidenceIsValid, IsDigest;
    ensured := evidence;
    if !exists i | 0 <= i < |evidence| :: evidence[i].evidenceType == kind {
      ensured := ensured + [EffectEvidence(kind, hashes.tagged(EvidenceLabel(name)), Some("gaap:runtime/" + name))];
    }
  }

  method NonExecution(request: EffectRequest, subject: Subject, cited: CitedDecision, evidence: seq<EffectEvidence>) returns (body: ResultBody)
    ensures body == NonExecutionBody(request, subject, cited, evidence)
  {
    var status := if cited.decision.outcome == Ask then AuthorityAwaited else Denied;
    body := ResultBody(
      PROTECTED_EFFECT_RESULT_SCHEMA, request.effectId, request.effectSequence, request.runId, request.runRequestDigest, cited.effectDigest,
      subject, request.capability, request.toolSchemaDigest, cited, status, None, None, Usage(0, 0, 0, 0), None, None, Some(cited.decision.code), evidence);
  }

  method Attempt(config: RuntimeConfig, request: EffectRequest, subject: Subject, cited: CitedDecision, o: Observation) returns (body: ResultBody)
    ensures body == AttemptBody(config, request, subject, cited, o)
  {
    body := ResultBody(
      PROTECTED_EFFECT_RESULT_SCHEMA, request.effectId, request.effectSequence, request.runId, request.runRequestDigest, cited.effectDigest,
      subject, request.capability, request.toolSchemaDigest, cited, o.status, o.postSubject, o.exit, o.usage, Some(config.executor),
      o.sandboxProfile, o.reason, o.evidence);
  }

  /** The body for a lost response: what the port knows, and evidence of what is missing. */
  method LostResponse(
    hashes: Hashes, config: RuntimeConfig, request: EffectRequest, subject: Subject, cited: CitedDecision, error: PortError) returns (body: ResultBody)
    ensures body == LostResponseBody(hashes, config, request, subject, cited, error)
  {
    hide EnsureKind;
    var usage := Usage(0, 0, 0, 0);
    if error.usage.Some? {
      usage := error.usage.value;
    }
    var evidence := error.evidence;
    evidence := EnsureEvidence(hashes, evidence, ExecutorEvidence, "executor");
    evidence := EnsureEvidence(hashes, evidence, SandboxEvidence, "sandbox");
    evidence := EnsureEvidence(hashes, evidence, UsageEvidence, "usage");
    evidence := EnsureEvidence(hashes, evidence, UnknownOutcomeEvidence, "unknown-outcome");
    body := ResultBody(
      PROTECTED_EFFECT_RESULT_SCHEMA, request.effectId, request.effectSequence, request.runId, request.runRequestDigest, cited.effectDigest,
      subject, request.capability, request.toolSchemaDigest, cited, UnknownOutcome, None, None,
      Usage(usage.cost, usage.elapsed, usage.tokens, if usage.toolCalls > 1 then usage.toolCalls else 1),
      Some(config.executor), Some(request.sandboxProfile), Some(Prefixed(ExecutorFailed, Verbatim(error.message))), evidence);
  }

  /** The evidence of a distrusted attempt: sanitised, identified and completed. */
  method UntrustedReferences(hashes: Hashes, request: EffectRequest, o: Observation, verified: bool, executor: ExecutorIdentity, post: Option<Subject>)
    returns (evidence: seq<EffectEvidence>)
    requires verified <==> VerifiedExecutor(o).Some?
    requires executor == ReportedExecutor(hashes, o) && post == UsablePostSubject(request, o.postSubject)
    ensures evidence == UntrustedEvidence(hashes, request, o)
  {
    hide EnsureKind, Sanitize, WithoutKind, VerifiedExecutor, ReportedExecutor, UsablePostSubject;
    evidence := SanitizeEvidence(o.evidence);
    if !verified {
      evidence := WithoutKind(evidence, ExecutorEvidence);
      evidence := evidence + [EffectEvidence(ExecutorEvidence, executor.digest, None)];
    }
    evidence := EnsureEvidence(hashes, evidence, ExecutorEvidence, "executor");
    evidence := EnsureEvidence(hashes, evidence, SandboxEvidence, "untrusted-sandbox");
    evidence := EnsureEvidence(hashes, evidence, UsageEvidence, "usage");
    evidence := EnsureEvidence(hashes, evidence, UnknownOutcomeEvidence, "untrusted-sandbox-unknown-outcome");
    if post.Some? {
      evidence := EnsureEvidence(hashes, evidence, SubjectObservation, "untrusted-sandbox-subject");
      if request.effectClass.MutationEffect? {
        evidence := EnsureEvidence(hashes, evidence, MutationEvidence, "untrusted-sandbox-mutation");
        evidence := EnsureEvidence(hashes, evidence, ArtifactChange, "untrusted-sandbox-artifact");
      }
    }
  }

  /** The executor that the observation names, or a substitute. */
  method NameExecutor(hashes: Hashes, o: Observation) returns (verified: bool, executor: ExecutorIdentity)
    ensures (verified <==> VerifiedExecutor(o).Some?) && executor == ReportedExecutor(hashes, o)
  {
    hide IsDigest, NonBlank;
    verified := o.executor.Some? && NonBlank(o.executor.value.name) && NonBlank(o.executor.value.version) && IsDigest(o.executor.value.digest);
    executor := Identity("unverified-executor", "0.1.0", hashes.tagged(UnverifiedExecutor(o.executor)));
    if verified {
      executor := o.executor.value;
    }
  }

  /** The observed subject, unless it is malformed or an observation claims to have changed it. */
  method UsableSubject(request: EffectRequest, observed: Option<Subject>) returns (post: Option<Subject>)
    ensures post == UsablePostSubject(request, observed)
  {
    hide IsDigest, NonBlank;
    post := observed;
    if post.Some? && (!NonBlank(post.value.locator) || !IsDigest(post.value.digest)) {
      post := None;
    }
    if post.Some? && request.effectClass.ObservationEffect? && post.value.digest != request.subject.digest {
      post := None;
    }
  }

  method SafeUsage(u: Usage) returns (safe: Usage)
    ensures safe == Cap(u)
  {
    var max := MAX_SAFE_INTEGER;
    safe := Usage(
      if u.cost > max then max else u.cost, if u.elapsed > max then max else u.elapsed,
      if u.tokens > max then max else u.tokens, if u.toolCalls > max then max else u.toolCalls);
  }

  /** The body of a distrusted attempt: an unknown outcome, with a substitute for an executor that cannot be named. */
  method Untrusted(hashes: Hashes, request: EffectRequest, subject: Subject, cited: CitedDecision, o: Observation, distrust: Word) returns (body: ResultBody)
    ensures body == UntrustedBody(hashes, request, subject, cited, o, distrust)
  {
    hide UntrustedEvidence, VerifiedExecutor, ReportedExecutor, UsablePostSubject, Cap, PhraseIsNonBlank;
    var verified, executor := NameExecutor(hashes, o);
    var post := UsableSubject(request, o.postSubject);
    var usage := SafeUsage(o.usage);
    var reason := Fixed(distrust);
    if o.reason.Some? && PhraseIsNonBlank(o.reason.value) {
      reason := Prefixed(distrust, o.reason.value);
    }
    var evidence := UntrustedReferences(hashes, request, o, verified, executor, post);
    body := ResultBody(
      PROTECTED_EFFECT_RESULT_SCHEMA, request.effectId, request.effectSequence, request.runId, request.runRequestDigest, cited.effectDigest,
      subject, request.capability, request.toolSchemaDigest, cited, UnknownOutcome, post, None, usage, Some(executor),
      Some(request.sandboxProfile), Some(reason), evidence);
  }

  /** An attempt that reports no tool call is charged one. */
  method Counted(hashes: Hashes, effectDigest: string, observation: Observation) returns (counted: Observation)
    ensures counted == CountAttempt(hashes, effectDigest, observation)
  {
    var o := observation;
    var evidence, toolCalls := o.evidence, o.usage.toolCalls;
    if toolCalls == 0 {
      evidence := evidence + [EffectEvidence(UsageEvidence, hashes.tagged(KnownAttempt(effectDigest)), None)];
      toolCalls := 1;
    }
    counted := Observation(
      o.status, o.postSubject, o.exit, Usage(o.usage.cost, o.usage.elapsed, o.usage.tokens, toolCalls), o.executor, o.sandboxProfile, o.reason, evidence);
  }

  /** The sandbox is looked at before the executor. */
  method Distrust(config: RuntimeConfig, request: EffectRequest, o: Observation) returns (reason: Option<Word>)
    ensures reason == DistrustReason(config, request, o)
  {
    if o.sandboxProfile.None? || o.sandboxProfile.value != request.sandboxProfile {
      return Some(UntrustedSandbox);
    }
    if o.executor.None? || o.executor.value != config.executor {
      return Some(UntrustedExecutor);
    }
    reason := None;
  }
}

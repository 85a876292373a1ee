/** The result bodies the engine builds, and exactly when each of them can be sealed. */
module EffectResults {
  import opened Text
  import opened Contracts
  import opened UsageArithmetic
  import opened RunCoordinator
  import opened RuntimeModel
  import opened ResultChecker

  /** The fields every result shares; the rest say that nothing was observed. */
  function BaseBody(request: EffectRequest, subject: Subject, cited: CitedDecision, status: ExecutionStatus, reason: Option<Phrase>): ResultBody {
    ResultBody(
      PROTECTED_EFFECT_RESULT_SCHEMA, request.effectId, request.effectSequence, request.runId, request.runRequestDigest,
      cited.effectDigest, subject, request.capability, request.toolSchemaDigest, cited, status,
      None, None, ZERO_USAGE, None, None, reason, [])
  }

  function NonExecutionBody(request: EffectRequest, subject: Subject, cited: CitedDecision, evidence: seq<EffectEvidence>): ResultBody {
    BaseBody(request, subject, cited, NonExecutionStatus(cited.decision), Some(cited.decision.code)).(evidence := evidence)
  }

  function AttemptBody(config: RuntimeConfig, request: EffectRequest, subject: Subject, cited: CitedDecision, observation: Observation): ResultBody {
    BaseBody(request, subject, cited, observation.status, observation.reason).(
      postSubject := observation.postSubject,
      exit := observation.exit,
      usage := observation.usage,
      executor := Some(config.executor),
      sandboxProfile := observation.sandboxProfile,
      evidence := observation.evidence)
  }

  // ---- Synthesised evidence ----

  function RuntimeEvidence(hashes: Hashes, kind: EffectEvidenceType, name: string): (e: EffectEvidence)
    ensures e.evidenceType == kind
    ensures hashes.WellFormed() ==> EffectEvidenceIsValid(e)
  {
    EffectEvidence(kind, hashes.tagged(EvidenceLabel(name)), Some("gaap:runtime/" + name))
  }

  predicate IsKept(evidence: seq<EffectEvidence>) {
    (forall e | e in evidence :: EffectEvidenceIsValid(e)) && IsUnique(evidence)
  }

  /** Adds evidence of a kind only when none is there. */
  function EnsureKind(hashes: Hashes, evidence: seq<EffectEvidence>, kind: EffectEvidenceType, name: string): (ensured: seq<EffectEvidence>)
    ensures Kinds(ensured) == Kinds(evidence) + {kind}
    ensures hashes.WellFormed() ==> (IsKept(ensured) <==> IsKept(evidence))
  {
    if HasKind(evidence, kind) then evidence
    else
      var added := evidence + [RuntimeEvidence(hashes, kind, name)];
      KeptAppend(evidence, RuntimeEvidence(hashes, kind, name));
      added
  }

  lemma KeptAppend(evidence: seq<EffectEvidence>, e: EffectEvidence)
    ensures Kinds(evidence + [e]) == Kinds(evidence) + {e.evidenceType}
    ensures IsKept(evidence + [e]) <==> IsKept(evidence) && EffectEvidenceIsValid(e) && e !in evidence
  {
    var added := evidence + [e];
    assert added[|evidence|] == e;
    assert forall x :: x in added <==> x in evidence || x == e;
    assert forall i | 0 <= i < |evidence| :: added[i] == evidence[i];
  }

  /** Evidence of one more kind, when there is any. */
  function WithEvidence(evidence: seq<EffectEvidence>, kind: EffectEvidenceType, digest: Option<string>): (longer: seq<EffectEvidence>)
    ensures Kinds(longer) == Kinds(evidence) + if digest.Some? then {kind} else {}
    ensures IsKept(evidence) && kind !in Kinds(evidence) && (digest.Some? ==> IsDigest(digest.value)) ==> IsKept(longer)
  {
    if digest.None? then evidence
    else
      KeptAppend(evidence, EffectEvidence(kind, digest.value, None));
      evidence + [EffectEvidence(kind, digest.value, None)]
  }

  lemma NothingIsKept()
    ensures IsKept([]) && Kinds([]) == {}
  {
  }

  predicate IsUsableUnknown(e: EffectEvidence) {
    e.evidenceType !in {FailureEvidence, InterruptedEvidence} && EffectEvidenceIsValid(e)
  }

  /** What is kept of an untrusted executor's evidence: well-formed, not contradicting an unknown outcome, and once each. */
  function Sanitize(evidence: seq<EffectEvidence>): (kept: seq<EffectEvidence>)
    ensures IsKept(kept)
    ensures forall e :: e in kept <==> e in evidence && IsUsableUnknown(e)
  {
    if evidence == [] then []
    else
      var last := evidence[|evidence| - 1];
      var kept := Sanitize(evidence[..|evidence| - 1]);
      assert forall e :: e in evidence <==> e in evidence[..|evidence| - 1] || e == last;
      KeptAppend(kept, last);
      if IsUsableUnknown(last) && last !in kept then kept + [last] else kept
  }

  /** The sanitising loop, with its set of keys seen. */
  method SanitizeEvidence(evidence: seq<EffectEvidence>) returns (sanitized: seq<EffectEvidence>)
    ensures sanitized == Sanitize(evidence)
  {
    var seen: set<EffectEvidence> := {};
    sanitized := [];
    var index := 0;
    while index < |evidence|
      invariant 0 <= index <= |evidence|
      invariant sanitized == Sanitize(evidence[..index])
      invariant seen == set e | e in sanitized
    {
      var reference := evidence[index];
      assert evidence[..index + 1][..index] == evidence[..index];
      index := index + 1;
      if IsUsableUnknown(reference) && reference !in seen {
        seen := seen + {reference};
        sanitized := sanitized + [reference];
      }
    }
    assert evidence[..index] == evidence;
  }

  function WithoutKind(evidence: seq<EffectEvidence>, kind: EffectEvidenceType): (rest: seq<EffectEvidence>)
    ensures forall e :: e in rest <==> e in evidence && e.evidenceType != kind
    ensures IsKept(evidence) ==> IsKept(rest)
  {
    if evidence == [] then []
    else
      var earlier, last := evidence[..|evidence| - 1], evidence[|evidence| - 1];
      var rest := WithoutKind(earlier, kind);
      assert evidence == earlier + [last];
      KeptAppend(earlier, last);
      KeptAppend(rest, last);
      assert forall e :: e in evidence <==> e in earlier || e == last;
      if last.evidenceType == kind then rest else rest + [last]
  }

  /** A stale subject is the only decline that carries evidence. */
  function NonExecutionEvidence(hashes: Hashes, decision: Decision): (evidence: seq<EffectEvidence>)
    ensures hashes.WellFormed() ==> IsKept(evidence)
    ensures Kinds(evidence) == if decision.code == Fixed(StaleSubject) then {SubjectObservation} else {}
  {
    if decision.code == Fixed(StaleSubject) then
      KeptAppend([], RuntimeEvidence(hashes, SubjectObservation, "current-subject"));
      assert [] + [RuntimeEvidence(hashes, SubjectObservation, "current-subject")] == [RuntimeEvidence(hashes, SubjectObservation, "current-subject")];
      [RuntimeEvidence(hashes, SubjectObservation, "current-subject")]
    else []
  }

  // ---- Untrusted executions ----

  /** The executor identity, when it is one. */
  function VerifiedExecutor(observation: Observation): Option<ExecutorIdentity> {
    if observation.executor.Some? && IdentityIsValid(observation.executor.value) then observation.executor else None
  }

  function ReportedExecutor(hashes: Hashes, observation: Observation): (identity: ExecutorIdentity)
    ensures hashes.WellFormed() ==> IdentityIsValid(identity)
  {
    var verified := VerifiedExecutor(observation);
    if verified.Some? then verified.value
    else Identity("unverified-executor", "0.1.0", hashes.tagged(UnverifiedExecutor(observation.executor)))
  }

  function UsablePostSubject(request: EffectRequest, subject: Option<Subject>): (usable: Option<Subject>)
    ensures usable.Some? ==> usable == subject && SubjectIsValid(usable.value)
    ensures usable.Some? && request.effectClass.ObservationEffect? ==> usable.value.digest == request.subject.digest
  {
    if subject.None? || !SubjectIsValid(subject.value) then None
    else if request.effectClass.ObservationEffect? && subject.value.digest != request.subject.digest then None
    else subject
  }

  /** An unverifiable executor's own evidence is replaced by evidence of the substitute identity. */
  function IdentifyExecutor(hashes: Hashes, observation: Observation): seq<EffectEvidence> {
    var sanitized := Sanitize(observation.evidence);
    if VerifiedExecutor(observation).Some? then sanitized
    else WithoutKind(sanitized, ExecutorEvidence) + [EffectEvidence(ExecutorEvidence, ReportedExecutor(hashes, observation).digest, None)]
  }

  /** The evidence of an attempt whose executor or sandbox is not the configured one. */
  function UntrustedEvidence(hashes: Hashes, request: EffectRequest, observation: Observation): seq<EffectEvidence> {
    var e1 := EnsureKind(hashes, IdentifyExecutor(hashes, observation), ExecutorEvidence, "executor");
    var e2 := EnsureKind(hashes, e1, SandboxEvidence, "untrusted-sandbox");
    var e3 := EnsureKind(hashes, e2, UsageEvidence, "usage");
    var e4 := EnsureKind(hashes, e3, UnknownOutcomeEvidence, "untrusted-sandbox-unknown-outcome");
    if UsablePostSubject(request, observation.postSubject).None? then e4
    else
      var e5 := EnsureKind(hashes, e4, SubjectObservation, "untrusted-sandbox-subject");
      if request.effectClass.ObservationEffect? then e5
      else EnsureKind(hashes, EnsureKind(hashes, e5, MutationEvidence, "untrusted-sandbox-mutation"), ArtifactChange, "untrusted-sandbox-artifact")
  }

  function UntrustedBody(
    hashes: Hashes, request: EffectRequest, subject: Subject, cited: CitedDecision, observation: Observation, distrust: Word): ResultBody
  {
    var reason :=
      if observation.reason.Some? && PhraseIsNonBlank(observation.reason.value) then Prefixed(distrust, observation.reason.value)
      else Fixed(distrust);
    BaseBody(request, subject, cited, UnknownOutcome, Some(reason)).(
      postSubject := UsablePostSubject(request, observation.postSubject),
      usage := Cap(observation.usage),
      executor := Some(ReportedExecutor(hashes, observation)),
      sandboxProfile := Some(request.sandboxProfile),
      evidence := UntrustedEvidence(hashes, request, observation))
  }

  // ---- Lost responses ----

  function LostEvidence(hashes: Hashes, evidence: seq<EffectEvidence>): seq<EffectEvidence> {
    EnsureKind(hashes,
      EnsureKind(hashes,
        EnsureKind(hashes,
          EnsureKind(hashes, evidence, ExecutorEvidence, "executor"),
          SandboxEvidence, "sandbox"),
        UsageEvidence, "usage"),
      UnknownOutcomeEvidence, "unknown-outcome")
  }

  /** At least one tool call is charged for a lost response. */
  function LostResponseUsage(error: PortError): Usage {
    var usage := UsageOf(error);
    usage.(toolCalls := if usage.toolCalls == 0 then 1 else usage.toolCalls)
  }

  /** The body for an invocation whose response was lost. */
  function LostResponseBody(
    hashes: Hashes, config: RuntimeConfig, request: EffectRequest, subject: Subject, cited: CitedDecision, error: PortError): ResultBody
  {
    BaseBody(request, subject, cited, UnknownOutcome, Some(Prefixed(ExecutorFailed, Verbatim(error.message)))).(
      usage := LostResponseUsage(error),
      executor := Some(config.executor),
      sandboxProfile := Some(request.sandboxProfile),
      evidence := LostEvidence(hashes, error.evidence))
  }

  // ---- Exactly when they seal ----

  /** The engine cites a decision it has just recorded for this very effect and subject. */
  predicate CitesRecorded(support: ContractSupport, request: EffectRequest, subject: Subject, cited: CitedDecision) {
    && NonBlank(cited.decisionId)
    && cited.effectDigest == support.hashes.effect(request)
    && IsDigest(cited.effectDigest)
    && cited.subjectDigest == subject.digest
    && SubjectIsValid(subject)
  }

  predicate CitesPermission(support: ContractSupport, request: EffectRequest, cited: CitedDecision) {
    && CitesRecorded(support, request, request.subject, cited)
    && cited.gate.PermissionGate? && cited.decision.outcome.Allow? && DecisionIsRecordable(cited.decision)
  }

  /** The body identifies the request it answers, cites the permission it ran under and makes no drift claim. */
  predicate AnswersAttempt(request: EffectRequest, cited: CitedDecision, body: ResultBody) {
    && body.status.IsAttempt()
    && body == BaseBody(request, request.subject, cited, body.status, body.reason).(
                 postSubject := body.postSubject, exit := body.exit, usage := body.usage, executor := body.executor,
                 sandboxProfile := body.sandboxProfile, evidence := body.evidence)
    && (body.reason.Some? ==> body.reason.value !in DRIFT_REASONS)
  }

  /** For such a body only the observed parts remain to be checked. */
  lemma AttemptReduces(support: ContractSupport, run: AgentRunRequest, request: EffectRequest, cited: CitedDecision, body: ResultBody)
    requires CheckEffectRequest(support, run, request).None?
    requires CitesPermission(support, request, cited) && AnswersAttempt(request, cited, body)
    ensures CheckResultBody(support, run, request, body).None? <==>
            && (body.postSubject.Some? ==> SubjectIsValid(body.postSubject.value))
            && UsageIsSafe(body.usage)
            && IsKept(body.evidence)
            && CheckOperationSpecific(request, body).None?
            && CheckStatusMatrix(request, body).None?
  {
    hide CheckOperationSpecific, CheckStatusMatrix, CheckEffectRequest, CheckEffectEvidence, IsDigest, NonBlank;
    assert CheckResultIdentity(request, cited.effectDigest, body).None?;
    assert CheckCitedDecision(cited.effectDigest, body).None?;
  }

  /** A decline seals exactly when its decision has no blank text and its code tells the truth about drift.
      A blank executor message on the not-dispatched path is therefore a sealing error. */
  lemma NonExecutionSealsExactly(
    support: ContractSupport, run: AgentRunRequest, request: EffectRequest, subject: Subject, cited: CitedDecision, evidence: seq<EffectEvidence>)
    requires CheckEffectRequest(support, run, request).None?
    requires CitesRecorded(support, request, subject, cited) && !cited.decision.outcome.Allow?
    requires IsKept(evidence) && Kinds(evidence) <= {SubjectObservation, CapabilitySchema}
    ensures CheckResultBody(support, run, request, NonExecutionBody(request, subject, cited, evidence)).None? <==>
            && DecisionIsRecordable(cited.decision)
            && (if subject == request.subject then cited.decision.code !in DRIFT_REASONS
                else cited.decision.outcome.Block? && cited.decision.code == Fixed(StaleSubject) && HasKind(evidence, SubjectObservation))
  {
    hide CheckEffectRequest, CheckEffectEvidence, IsDigest, NonBlank;
    var body := NonExecutionBody(request, subject, cited, evidence);
    assert CheckResultIdentity(request, cited.effectDigest, body).None?;
    assert CheckObservedIdentities(body).None?;
    assert CheckOperationSpecific(request, body).None?;
  }

  lemma UntrustedEvidenceIsComplete(hashes: Hashes, request: EffectRequest, observation: Observation)
    requires hashes.WellFormed()
    ensures IsKept(UntrustedEvidence(hashes, request, observation))
    ensures Kinds(UntrustedEvidence(hashes, request, observation)) ==
            Kinds(Sanitize(observation.evidence)) + {ExecutorEvidence, SandboxEvidence, UsageEvidence, UnknownOutcomeEvidence}
            + (if UsablePostSubject(request, observation.postSubject).None? then {}
               else if request.effectClass.ObservationEffect? then {SubjectObservation}
               else {SubjectObservation, MutationEvidence, ArtifactChange})
  {
    hide IsKept, EnsureKind, Kinds, Sanitize, IdentifyExecutor, UsablePostSubject;
    IdentifiedEvidence(hashes, observation);
  }

  lemma IdentifiedEvidence(hashes: Hashes, observation: Observation)
    requires hashes.WellFormed()
    ensures IsKept(IdentifyExecutor(hashes, observation))
    ensures Kinds(IdentifyExecutor(hashes, observation)) + {ExecutorEvidence} == Kinds(Sanitize(observation.evidence)) + {ExecutorEvidence}
  {
    var sanitized := Sanitize(observation.evidence);
    var without := WithoutKind(sanitized, ExecutorEvidence);
    KeptAppend(without, EffectEvidence(ExecutorEvidence, ReportedExecutor(hashes, observation).digest, None));
    assert Kinds(without) + {ExecutorEvidence} == Kinds(sanitized) + {ExecutorEvidence};
  }

  /** An identified unknown outcome with the four mandatory kinds of evidence passes the status matrix unless
      its evidence also claims a known ending. */
  lemma UnknownOutcomePasses(request: EffectRequest, body: ResultBody)
    requires body.status.UnknownOutcome? && body.cited.decision.outcome.Allow?
    requires body.reason.Some? && PhraseIsNonBlank(body.reason.value) && body.exit.None?
    requires body.executor.Some? && IdentityIsValid(body.executor.value)
    requires body.sandboxProfile == Some(request.sandboxProfile) && IdentityIsValid(request.sandboxProfile)
    requires {ExecutorEvidence, SandboxEvidence, UsageEvidence, UnknownOutcomeEvidence} <= Kinds(body.evidence)
    requires body.postSubject.Some? ==> CheckKnownPostEffect(request, body).None?
    ensures CheckStatusMatrix(request, body).None? <==> HasNoKind(body.evidence, {FailureEvidence, InterruptedEvidence})
  {
    hide IdentityIsValid, Kinds, CheckKnownPostEffect;
    assert CheckIdentity(body.executor.value).None?;
    assert CheckIdentity(body.sandboxProfile.value).None?;
  }

  /** Sanitising keeps a kind exactly when some usable evidence has it. */
  lemma SanitizedKinds(evidence: seq<EffectEvidence>)
    ensures Kinds(Sanitize(evidence)) !! {FailureEvidence, InterruptedEvidence}
    ensures ExitEvidence in Kinds(Sanitize(evidence)) <==> exists e | e in evidence :: e.evidenceType == ExitEvidence && EffectEvidenceIsValid(e)
  {
    hide EffectEvidenceIsValid;
  }

  /** Whatever an untrusted executor reports, the sanitised unknown outcome seals, except that a non-process
      effect with well-formed exit evidence is refused. */
  lemma UntrustedSealsExactly(
    support: ContractSupport, run: AgentRunRequest, request: EffectRequest, cited: CitedDecision, observation: Observation, distrust: Word)
    requires support.hashes.WellFormed()
    requires CheckEffectRequest(support, run, request).None?
    requires CitesPermission(support, request, cited)
    requires distrust in {UntrustedSandbox, UntrustedExecutor}
    ensures CheckResultBody(support, run, request, UntrustedBody(support.hashes, request, request.subject, cited, observation, distrust)).None? <==>
            DistrustedFits(request, observation)
  {
    hide CheckEffectRequest, CheckResultBody, UntrustedEvidence, Sanitize, IsKept, Kinds, EffectEvidenceIsValid, CheckStatusMatrix;
    hide IdentityIsValid, SubjectIsValid, ReportedExecutor, UsablePostSubject;
    UntrustedEvidenceIsComplete(support.hashes, request, observation);
    SanitizedKinds(observation.evidence);
    var body := UntrustedBody(support.hashes, request, request.subject, cited, observation, distrust);
    AttemptReduces(support, run, request, cited, body);
    UnknownOutcomePasses(request, body);
    assert HasNoKind(body.evidence, {FailureEvidence, InterruptedEvidence});
    assert ExitEvidence in Kinds(body.evidence) <==> ExitEvidence in Kinds(Sanitize(observation.evidence));
  }

  /** A lost response seals exactly when the port's own evidence and usage are acceptable for an unknown outcome. */
  lemma LostResponseSealsExactly(
    support: ContractSupport, config: RuntimeConfig, run: AgentRunRequest, request: EffectRequest, cited: CitedDecision, error: PortError)
    requires support.hashes.WellFormed() && IdentityIsValid(config.executor)
    requires CheckEffectRequest(support, run, request).None?
    requires CitesPermission(support, request, cited)
    ensures CheckResultBody(support, run, request, LostResponseBody(support.hashes, config, request, request.subject, cited, error)).None? <==>
            LostResponseFits(request, error)
  {
    hide CheckEffectRequest, CheckResultBody, EnsureKind, IdentityIsValid, IsKept, Kinds;
    var body := LostResponseBody(support.hashes, config, request, request.subject, cited, error);
    AttemptReduces(support, run, request, cited, body);
    assert Kinds(body.evidence) == Kinds(error.evidence) + {ExecutorEvidence, SandboxEvidence, UsageEvidence, UnknownOutcomeEvidence};
    UnknownOutcomePasses(request, body);
  }

  // ---- What a reply must look like ----

  /** The kind of evidence that claims this ending. */
  function EndingKind(status: ExecutionStatus): set<EffectEvidenceType> {
    match status
    case EffectFailed => {FailureEvidence}
    case EffectInterrupted => {InterruptedEvidence}
    case UnknownOutcome => {UnknownOutcomeEvidence}
    case _ => {}
  }

  /** Only an execution has no reason; any other attempt has one, and it does not claim drift. */
  predicate ReasonFits(o: Observation) {
    if o.status.Executed? then o.reason.None?
    else o.reason.Some? && PhraseIsNonBlank(o.reason.value) && o.reason.value !in DRIFT_REASONS
  }

  /** The subject afterwards is known unless the outcome is not; an observation leaves it as it was, and a mutation
      comes with evidence of the change. */
  predicate PostSubjectFits(request: EffectRequest, o: Observation) {
    if o.postSubject.None? then o.status.UnknownOutcome?
    else
      && SubjectIsValid(o.postSubject.value) && HasKind(o.evidence, SubjectObservation)
      && if request.effectClass.ObservationEffect? then o.postSubject.value.digest == request.subject.digest
         else {MutationEvidence, ArtifactChange} <= Kinds(o.evidence)
  }

  /** Only a process exits: always when it executed or failed, never when its outcome is unknown. */
  predicate ExitFits(request: EffectRequest, o: Observation) {
    if !request.family.Process? then o.exit.None? && HasNoKind(o.evidence, {ExitEvidence})
    else if o.exit.None? then o.status !in {Executed, EffectFailed}
    else !o.status.UnknownOutcome? && HasKind(o.evidence, ExitEvidence) && (o.exit.value.ExitSignal? ==> NonBlank(o.exit.value.signal))
  }

  /** What a trusted executor's report of an attempt must show to be retained. */
  predicate ObservationFits(request: EffectRequest, o: Observation) {
    && UsageIsSafe(o.usage) && IsKept(o.evidence)
    && {ExecutorEvidence, SandboxEvidence, UsageEvidence} <= Kinds(o.evidence)
    && Kinds(o.evidence) * {FailureEvidence, InterruptedEvidence, UnknownOutcomeEvidence} == EndingKind(o.status)
    && ReasonFits(o) && PostSubjectFits(request, o) && ExitFits(request, o)
  }

  /** What a distrusted one's must not show: well-formed evidence of an exit where there is no process. */
  predicate DistrustedFits(request: EffectRequest, o: Observation) {
    request.family.Process? || forall e | e in o.evidence && e.evidenceType == ExitEvidence :: !EffectEvidenceIsValid(e)
  }

  /** What the port knows about a lost response must fit an unknown outcome. */
  predicate LostResponseFits(request: EffectRequest, error: PortError) {
    && IsKept(error.evidence) && UsageIsSafe(UsageOf(error))
    && HasNoKind(error.evidence, {FailureEvidence, InterruptedEvidence})
    && (request.family.Process? || HasNoKind(error.evidence, {ExitEvidence}))
  }

  /** Which replies of the executor can be retained as a result; one that declines the effect always can. */
  predicate ReplyFits(config: RuntimeConfig, hashes: Hashes, request: EffectRequest, reply: Result<Observation, PortError>) {
    match reply
    case Failure(error) => if error.notDispatched then NonBlank(error.message) else LostResponseFits(request, error)
    case Success(o) =>
      o.status.IsAttempt() ==>
        var counted := CountAttempt(hashes, hashes.effect(request), o);
        if DistrustReason(config, request, counted).Some? then DistrustedFits(request, counted) else ObservationFits(request, counted)
  }

  /** A reason that claims drift is refused where there is none. */
  lemma DriftClaimIsRefused(support: ContractSupport, run: AgentRunRequest, request: EffectRequest, body: ResultBody)
    requires body.preSubject == request.subject && body.toolSchemaDigest == request.toolSchemaDigest
    requires body.reason.Some? && body.reason.value in DRIFT_REASONS
    ensures CheckResultBody(support, run, request, body).Some?
  {
    hide CheckStatusMatrix, CheckOperationSpecific, CheckEffectEvidence, CheckResultIdentity, CheckObservedIdentities, CheckCitedDecision, CheckEffectRequest;
  }

  /** A known ending passes the post-effect checks exactly when its subject and its exit fit. */
  lemma PostEffectPassesExactly(request: EffectRequest, body: ResultBody, o: Observation)
    requires body.status == o.status && body.postSubject == o.postSubject && body.exit == o.exit && body.evidence == o.evidence
    requires o.status.IsAttempt() && (o.postSubject.Some? ==> SubjectIsValid(o.postSubject.value))
    requires !o.status.UnknownOutcome?
    ensures CheckOperationSpecific(request, body).None? && CheckKnownPostEffect(request, body).None? <==>
            PostSubjectFits(request, o) && ExitFits(request, o)
  {
    hide Kinds, SubjectIsValid;
  }

  lemma UnknownPostEffectPassesExactly(request: EffectRequest, body: ResultBody, o: Observation)
    requires body.status == o.status && body.postSubject == o.postSubject && body.exit == o.exit && body.evidence == o.evidence
    requires o.status.UnknownOutcome? && (o.postSubject.Some? ==> SubjectIsValid(o.postSubject.value))
    ensures CheckOperationSpecific(request, body).None? && body.exit.None? && (body.postSubject.Some? ==> CheckKnownPostEffect(request, body).None?) <==>
            PostSubjectFits(request, o) && ExitFits(request, o)
  {
    hide Kinds, SubjectIsValid;
  }

  /** Requiring one kind and rejecting the others, as one equation. */
  lemma EndingKinds(kinds: set<EffectEvidenceType>, status: ExecutionStatus)
    requires status.IsAttempt()
    ensures var all := {FailureEvidence, InterruptedEvidence, UnknownOutcomeEvidence};
            kinds * all == EndingKind(status) <==> EndingKind(status) <= kinds && kinds !! (all - EndingKind(status))
  {
    var all := {FailureEvidence, InterruptedEvidence, UnknownOutcomeEvidence};
    assert EndingKind(status) <= all;
    assert kinds !! (all - EndingKind(status)) ==> kinds * all <= EndingKind(status);
    assert kinds * all == EndingKind(status) ==> forall k | k in kinds && k in all :: k in kinds * all;
  }

  /** The matrix of statuses, for the body of a trusted attempt that makes no drift claim. */
  lemma StatusMatrixPassesExactly(request: EffectRequest, body: ResultBody, o: Observation)
    requires body.status == o.status && body.postSubject == o.postSubject && body.exit == o.exit && body.evidence == o.evidence && body.reason == o.reason
    requires o.status.IsAttempt() && (o.postSubject.Some? ==> SubjectIsValid(o.postSubject.value))
    requires o.reason.Some? ==> o.reason.value !in DRIFT_REASONS
    requires body.cited.decision.outcome.Allow? && body.executor.Some? && IdentityIsValid(body.executor.value)
    requires body.sandboxProfile == Some(request.sandboxProfile) && IdentityIsValid(request.sandboxProfile)
    ensures CheckOperationSpecific(request, body).None? && CheckStatusMatrix(request, body).None? <==>
            && {ExecutorEvidence, SandboxEvidence, UsageEvidence} <= Kinds(o.evidence)
            && Kinds(o.evidence) * {FailureEvidence, InterruptedEvidence, UnknownOutcomeEvidence} == EndingKind(o.status)
            && ReasonFits(o) && PostSubjectFits(request, o) && ExitFits(request, o)
  {
    hide Kinds, SubjectIsValid, IdentityIsValid, CheckKnownPostEffect, CheckOperationSpecific, PostSubjectFits, ExitFits;
    assert CheckIdentity(body.executor.value).None?;
    assert CheckIdentity(body.sandboxProfile.value).None?;
    EndingKinds(Kinds(o.evidence), o.status);
    var all := {FailureEvidence, InterruptedEvidence, UnknownOutcomeEvidence};
    if o.status.UnknownOutcome? {
      assert all - EndingKind(o.status) == {FailureEvidence, InterruptedEvidence};
      UnknownPostEffectPassesExactly(request, body, o);
    } else {
      assert all - EndingKind(o.status) ==
             if o.status.Executed? then all
             else if o.status.EffectFailed? then {InterruptedEvidence, UnknownOutcomeEvidence}
             else {FailureEvidence, UnknownOutcomeEvidence};
      PostEffectPassesExactly(request, body, o);
    }
  }

  /** The result of a trusted attempt is accepted exactly when the observation fits its status and the effect's class. */
  lemma AttemptSealsExactly(
    support: ContractSupport, config: RuntimeConfig, run: AgentRunRequest, request: EffectRequest, cited: CitedDecision, o: Observation)
    requires CheckEffectRequest(support, run, request).None? && IdentityIsValid(config.executor)
    requires CitesPermission(support, request, cited)
    requires o.status.IsAttempt() && o.sandboxProfile == Some(request.sandboxProfile)
    ensures CheckResultBody(support, run, request, AttemptBody(config, request, request.subject, cited, o)).None? <==> ObservationFits(request, o)
  {
    hide CheckEffectRequest, CheckResultBody, CheckStatusMatrix, CheckOperationSpecific, Kinds, IsKept, SubjectIsValid, IdentityIsValid, ExitFits;
    hide CitesPermission, UsageIsSafe;
    var body := AttemptBody(config, request, request.subject, cited, o);
    AllowedIsCited(support, request, cited);
    AdmittedSandbox(support, run, request);
    if o.reason.Some? && o.reason.value in DRIFT_REASONS {
      DriftClaimIsRefused(support, run, request, body);
    } else {
      AttemptReduces(support, run, request, cited, body);
      if o.postSubject.Some? ==> SubjectIsValid(o.postSubject.value) {
        StatusMatrixPassesExactly(request, body, o);
      }
    }
  }

  lemma AllowedIsCited(support: ContractSupport, request: EffectRequest, cited: CitedDecision)
    requires CitesPermission(support, request, cited)
    ensures cited.decision.outcome.Allow?
  {
  }

  lemma AdmittedSandbox(support: ContractSupport, run: AgentRunRequest, request: EffectRequest)
    requires CheckEffectRequest(support, run, request).None?
    ensures IdentityIsValid(request.sandboxProfile)
  {
  }
}

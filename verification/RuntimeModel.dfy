/** What the engine is configured with, what its ports answer, and the gate inputs it builds. */
module RuntimeModel {
  import opened Text
  import opened Contracts
  import opened UsageArithmetic
  import opened RunCoordinator

  // ---- Configuration ----

  datatype GateApproval = GateApproval(subjectDigest: string, maxCost: Option<nat>)

  datatype PermissionPolicy = PermissionPolicy(
    decision: Option<PolicyDecision>, riskTags: seq<RiskTag>, wrapperChain: seq<string>, approvals: seq<GateApproval>)

  datatype TrustedToolSchema = TrustedToolSchema(capability: CapabilityIdentity, schemaDigest: string)

  datatype RuntimeSupport = RuntimeSupport(
    contracts: ContractSupport,
    trustedCapabilities: seq<CapabilityIdentity>,
    policy: PermissionPolicy,
    estimate: Usage,
    runtimeApprovals: seq<GateApproval>,
    trustedVerifiers: seq<string>,
    trustedSchemas: Option<seq<TrustedToolSchema>>)

  datatype BudgetThresholds = BudgetThresholds(warn: nat, approval: nat, hardStop: nat)

  datatype RuntimeConfig = RuntimeConfig(implementerId: string, executor: ExecutorIdentity, maxEffects: nat, thresholds: BudgetThresholds)

  predicate ConfigIsValid(config: RuntimeConfig, request: AgentRunRequest) {
    && NonBlank(config.implementerId)
    && IdentityIsValid(config.executor)
    && 0 < config.maxEffects <= MAX_SAFE_INTEGER
    && config.thresholds.warn <= config.thresholds.approval <= config.thresholds.hardStop <= MAX_SAFE_INTEGER
    && config.thresholds.hardStop <= request.budget.maxCost
  }

  predicate SupportIsValid(support: RuntimeSupport) {
    && (support.trustedSchemas.Some? ==>
          forall pin | pin in support.trustedSchemas.value :: IsDigest(pin.schemaDigest) && IdentityIsValid(pin.capability))
    && (forall a | a in support.runtimeApprovals ::
          IsDigest(a.subjectDigest) && (a.maxCost.Some? ==> a.maxCost.value <= MAX_SAFE_INTEGER))
    && (forall a | a in support.policy.approvals :: IsDigest(a.subjectDigest))
    && (forall v | v in support.trustedVerifiers :: NonBlank(v))
    && UsageIsSafe(support.estimate)
  }

  /** The configuration checks, one after the other. */
  method ValidateConfig(config: RuntimeConfig, request: AgentRunRequest) returns (valid: bool)
    ensures valid <==> ConfigIsValid(config, request)
  {
    var executor, thresholds := config.executor, config.thresholds;
    if !NonBlank(config.implementerId) {
      return false;
    }
    if !NonBlank(executor.name) || !NonBlank(executor.version) || !IsDigest(executor.digest) {
      return false;
    }
    if config.maxEffects == 0 || config.maxEffects > MAX_SAFE_INTEGER {
      return false;
    }
    if thresholds.warn > MAX_SAFE_INTEGER || thresholds.approval > MAX_SAFE_INTEGER || thresholds.hardStop > MAX_SAFE_INTEGER {
      return false;
    }
    if thresholds.warn > thresholds.approval || thresholds.approval > thresholds.hardStop {
      return false;
    }
    valid := thresholds.hardStop <= request.budget.maxCost;
  }

  method ValidatePins(pins: seq<TrustedToolSchema>) returns (valid: bool)
    ensures valid <==> forall pin | pin in pins :: IsDigest(pin.schemaDigest) && IdentityIsValid(pin.capability)
  {
    var index := 0;
    while index < |pins|
      invariant 0 <= index <= |pins|
      invariant forall i | 0 <= i < index :: IsDigest(pins[i].schemaDigest) && IdentityIsValid(pins[i].capability)
    {
      var pin := pins[index];
      if !IsDigest(pin.schemaDigest) || !IsDigest(pin.capability.digest) || !NonBlank(pin.capability.name) || !NonBlank(pin.capability.version) {
        return false;
      }
      index := index + 1;
    }
    valid := true;
  }

  method ValidateApprovals(approvals: seq<GateApproval>, boundCost: bool) returns (valid: bool)
    ensures valid <==>
            forall a | a in approvals :: IsDigest(a.subjectDigest) && (boundCost && a.maxCost.Some? ==> a.maxCost.value <= MAX_SAFE_INTEGER)
  {
    var index := 0;
    while index < |approvals|
      invariant 0 <= index <= |approvals|
      invariant forall i | 0 <= i < index ::
                  IsDigest(approvals[i].subjectDigest) && (boundCost && approvals[i].maxCost.Some? ==> approvals[i].maxCost.value <= MAX_SAFE_INTEGER)
    {
      if !IsDigest(approvals[index].subjectDigest) {
        return false;
      }
      if boundCost && approvals[index].maxCost.Some? && approvals[index].maxCost.value > MAX_SAFE_INTEGER {
        return false;
      }
      index := index + 1;
    }
    valid := true;
  }

  /** The support checks: pins, runtime approvals, permission approvals, verifiers, and the estimate. */
  method ValidateSupport(support: RuntimeSupport) returns (valid: bool)
    ensures valid <==> SupportIsValid(support)
  {
    hide IsDigest, NonBlank, IdentityIsValid;
    if support.trustedSchemas.Some? {
      var pinned := ValidatePins(support.trustedSchemas.value);
      if !pinned {
        return false;
      }
    }
    var bound := ValidateApprovals(support.runtimeApprovals, true);
    if !bound {
      return false;
    }
    var approved := ValidateApprovals(support.policy.approvals, false);
    if !approved || exists i | 0 <= i < |support.trustedVerifiers| :: !NonBlank(support.trustedVerifiers[i]) {
      return false;
    }
    var max, u := MAX_SAFE_INTEGER, support.estimate;
    valid := u.cost <= max && u.elapsed <= max && u.tokens <= max && u.toolCalls <= max;
  }

  // ---- Port answers ----

  datatype Observed<+T> = Observed(value: T, usage: Usage)

  datatype PortError = PortError(message: string, notDispatched: bool, evidence: seq<EffectEvidence>, usage: Option<Usage>)

  type PortReply<+T> = Result<Observed<T>, PortError>

  datatype Cancellation = Cancellation(actorId: Option<string>, reason: Phrase, evidence: Evidence)

  datatype AgentStep = ProposeEffect(request: EffectRequest) | FinishRun | CancelRun(cancellation: Cancellation)

  datatype Observation = Observation(
    status: ExecutionStatus,
    postSubject: Option<Subject>,
    exit: Option<EffectExit>,
    usage: Usage,
    executor: Option<ExecutorIdentity>,
    sandboxProfile: Option<SandboxProfileIdentity>,
    reason: Option<Phrase>,
    evidence: seq<EffectEvidence>)

  datatype Report = Report(subjectDigest: string, verifierId: string, verdict: Verdict, evidence: seq<Evidence>)

  /** Everything the three ports will answer during one run: arbitrary replies, numbered where a port is asked repeatedly. */
  datatype PortScript = PortScript(
    plan: PortReply<string>,
    steps: nat -> PortReply<AgentStep>,
    executions: nat -> Result<Observation, PortError>,
    verification: PortReply<Report>,
    completionCheck: PortReply<()>,
    agentClaim: Result<Option<Cancellation>, PortError>,
    executorClaim: Result<Option<Cancellation>, PortError>,
    agentCancellation: Option<Cancellation>,
    executorCancellation: Option<Cancellation>)

  function UsageOf(error: PortError): Usage {
    if error.usage.Some? then error.usage.value else ZERO_USAGE
  }

  function ReplyUsage<T>(reply: PortReply<T>): Usage {
    match reply
    case Success(observed) => observed.usage
    case Failure(error) => UsageOf(error)
  }

  // ---- Gate inputs ----

  /** The first item that matches. */
  function Find<T>(items: seq<T>, matches: T -> bool): (found: Option<T>)
    ensures found.Some? ==> found.value in items && matches(found.value)
    ensures found.None? ==> forall item | item in items :: !matches(item)
  {
    if items == [] then None
    else if matches(items[0]) then Some(items[0])
    else Find(items[1..], matches)
  }

  lemma {:induction false} FindIsFirst<T>(items: seq<T>, matches: T -> bool, n: nat)
    requires n <= |items| && forall i | 0 <= i < n :: !matches(items[i])
    ensures if n < |items| && matches(items[n]) then Find(items, matches) == Some(items[n])
            else n == |items| ==> Find(items, matches) == None
  {
    if n > 0 {
      assert forall i | 0 <= i < |items| - 1 :: items[1..][i] == items[i + 1];
      FindIsFirst(items[1..], matches, n - 1);
    }
  }

  function ApprovalFor(approvals: seq<GateApproval>, digest: string): Option<GateApproval> {
    Find(approvals, (a: GateApproval) => a.subjectDigest == digest)
  }

  function PlanApprovalFor(approvals: seq<Approval>, digest: string): Option<Approval> {
    Find(approvals, (a: Approval) => a.subjectDigest == digest)
  }

  function ApprovalFieldOf(approval: Option<GateApproval>): Option<ApprovalField> {
    if approval.None? then None else Some(ApprovalField(true, Some(approval.value.subjectDigest), approval.value.maxCost))
  }

  function PlanInputFor(subjectDigest: string, approval: Option<Approval>): GateInput {
    ForPlan(PlanInput(Some(subjectDigest), if approval.None? then None else Some(ApprovalField(true, Some(approval.value.subjectDigest), None))))
  }

  function PermissionInputFor(actionDigest: string, policy: PermissionPolicy): GateInput {
    ForPermission(PermissionInput(
      Some(actionDigest),
      if policy.decision.None? then NullPolicy else Policy(policy.decision.value),
      Some(policy.riskTags),
      Some(policy.wrapperChain),
      ApprovalFieldOf(ApprovalFor(policy.approvals, actionDigest))))
  }

  /** A capability is trusted by name, and by a schema pin when pins are configured. */
  predicate TrustsTool(support: RuntimeSupport, capability: CapabilityIdentity, schemaDigest: Option<string>) {
    && capability in support.trustedCapabilities
    && (support.trustedSchemas.Some? ==>
          schemaDigest.Some? && TrustedToolSchema(capability, schemaDigest.value) in support.trustedSchemas.value)
  }

  function ToolTrustInputFor(support: RuntimeSupport, capability: CapabilityIdentity, schemaDigest: Option<string>): GateInput {
    ForToolTrust(ToolTrustInput(
      Some(capability.name),
      Some(capability.digest),
      if TrustsTool(support, capability, schemaDigest) then Some(ApprovalField(true, Some(capability.digest), None)) else None))
  }

  function RuntimeInputFor(support: RuntimeSupport, config: RuntimeConfig, currentCost: nat, effectDigest: string): GateInput {
    ForRuntime(RuntimeInput(
      Some(effectDigest),
      Some(KnownUsage),
      Some(currentCost),
      Some(support.estimate.cost),
      Some(Thresholds(Some(config.thresholds.warn), Some(config.thresholds.approval), Some(config.thresholds.hardStop))),
      ApprovalFieldOf(ApprovalFor(support.runtimeApprovals, effectDigest))))
  }

  function MutationInputFor(permission: Decision, toolTrust: Decision, runtime: Decision): GateInput {
    ForWorkflow(WorkflowInput(
      Some(MutationBoundary), None,
      Some(GateOutcomes(Some(Allow), Some(permission.outcome), Some(toolTrust.outcome), Some(runtime.outcome), None))))
  }

  function CompletionInputFor(verification: Decision, mutationAuthorized: bool): GateInput {
    ForWorkflow(WorkflowInput(
      Some(CompletionBoundary), Some(mutationAuthorized),
      Some(GateOutcomes(None, None, None, None, Some(verification.outcome)))))
  }

  function EvidenceCommand(index: nat): (command: string)
    ensures NonBlank(command)
  {
    "verification-evidence-" + Decimal(index)
  }

  function CommandsFor(evidence: seq<Evidence>): seq<CommandEvidence> {
    seq(|evidence|, i requires 0 <= i < |evidence| => CommandEvidence(Some(EvidenceCommand(i)), Some(evidence[i].digest), true))
  }

  function VerificationInputFor(config: RuntimeConfig, subjectDigest: string, report: Report): GateInput {
    ForVerification(VerificationInput(
      Some(subjectDigest),
      Some(config.implementerId),
      Some(ReportInput(Some(report.verifierId), Some(report.subjectDigest), Some(report.verdict), Some(CommandsFor(report.evidence))))))
  }

  // ---- Admission and sanitising ----

  /** The budget test before the gates: cost is left to the runtime gate. */
  function BudgetAdmission(current: Usage, budget: ResourceBudget, estimate: Usage): (decision: Option<Decision>)
    ensures decision.None? <==>
            && UsageIsSafe(Plus(current, estimate))
            && WithinBudget(Plus(current, estimate), budget.(maxCost := MAX_SAFE_INTEGER))
    ensures decision.Some? ==> decision.value.outcome.Block? && IsGateDecision(decision.value)
    ensures decision.Some? ==>
              decision.value.code == Fixed(if UsageIsSafe(Plus(current, estimate)) then BudgetExceeded else RuntimeInvalidBudget)
    ensures decision.Some? ==> decision.value.effects == [Fixed(StopExecution), Fixed(RequestUsageReconciliation)]
  {
    var projected := Project(current, estimate);
    if projected.None? then
      Some(Decide(Block, RuntimeInvalidBudget, [StopExecution, RequestUsageReconciliation]))
    else if projected.value.elapsed > budget.maxElapsed || projected.value.tokens > budget.maxTokens || projected.value.toolCalls > budget.maxToolCalls then
      Some(Decide(Block, BudgetExceeded, [StopExecution, RequestUsageReconciliation]))
    else None
  }

  function SanitizeCancellation(hashes: Hashes, c: Cancellation): (clean: Cancellation)
    requires hashes.WellFormed()
    ensures NonBlankOption(clean.actorId) && PhraseIsNonBlank(clean.reason)
    ensures EvidenceIsValid(clean.evidence) && clean.evidence.evidenceType == InterruptionEvidence
    ensures NonBlankOption(c.actorId) ==> clean.actorId == c.actorId
    ensures PhraseIsNonBlank(c.reason) ==> clean.reason == c.reason
    ensures !PhraseIsNonBlank(c.reason) ==> clean.reason == Fixed(RuntimeInterrupted)
    ensures if EvidenceIsValid(c.evidence) && c.evidence.evidenceType == InterruptionEvidence then clean.evidence == c.evidence
            else clean.evidence.digest == hashes.tagged(InterruptionLabel(clean.reason))
  {
    var reason := if PhraseIsNonBlank(c.reason) then c.reason else Fixed(RuntimeInterrupted);
    Cancellation(
      if c.actorId.Some? && NonBlank(c.actorId.value) then c.actorId else None,
      reason,
      if EvidenceIsValid(c.evidence) && c.evidence.evidenceType == InterruptionEvidence then c.evidence
      else Evidence(InterruptionEvidence, hashes.tagged(InterruptionLabel(reason)), Some("gaap:runtime/interruption")))
  }

  function NonExecutionStatus(decision: Decision): ExecutionStatus {
    if decision.outcome.Ask? then AuthorityAwaited else Denied
  }

  /** The decision recorded when the executor itself declines. */
  function ExecutorDecline(observation: Observation): (d: Decision)
    ensures IsGateDecision(d) && !d.outcome.Allow?
    ensures d.outcome.Ask? <==> observation.status.AuthorityAwaited?
    ensures d.code == Fixed(if observation.status.AuthorityAwaited? then ExecutorAwaitingAuthority else ExecutorDenied)
    ensures d.effects != [] && d.effects[0] == Fixed(if observation.status.AuthorityAwaited? then RequestExecutorAuthority else StopExecution)
    ensures match observation.reason
            case Some(reason) => if PhraseIsNonBlank(reason) then d.effects[1..] == [reason] else |d.effects| == 1
            case None => |d.effects| == 1
  {
    var base :=
      if observation.status.AuthorityAwaited? then Decide(Ask, ExecutorAwaitingAuthority, [RequestExecutorAuthority])
      else Decide(Block, ExecutorDenied, [StopExecution]);
    if observation.reason.Some? && PhraseIsNonBlank(observation.reason.value) then
      base.(effects := base.effects + [observation.reason.value])
    else base
  }

  /** The decision recorded when the executor proves that nothing was dispatched; its message becomes an effect. */
  function NotDispatchedDecision(error: PortError): (d: Decision)
    ensures d.outcome.Block? && d.code == Fixed(ExecutorNotDispatched)
    ensures d.effects == [Fixed(StopExecution), Verbatim(error.message)]
    ensures DecisionIsRecordable(d) <==> NonBlank(error.message)
  {
    var base := Decide(Block, ExecutorNotDispatched, [StopExecution]);
    var d := base.(effects := base.effects + [Verbatim(error.message)]);
    assert d.effects[|base.effects|] in d.effects;
    d
  }

  /** Whether a verification report may enter the ledger. */
  predicate ReportIsReceiptSafe(request: AgentRunRequest, implementerId: string, report: Report) {
    && IsDigest(report.subjectDigest) && NonBlank(implementerId) && NonBlank(report.verifierId)
    && EvidenceSetIsValid(report.evidence)
    && (report.verdict.Pass? ==>
          report.verifierId != implementerId && forall t | t in request.requiredEvidence :: HasEvidence(report.evidence, t))
  }

  /** An attempt that reports no tool call is charged one, with evidence of the correction. */
  function CountAttempt(hashes: Hashes, effectDigest: string, observation: Observation): (counted: Observation)
    ensures counted.usage.toolCalls >= 1
    ensures counted.usage == observation.usage.(toolCalls := if observation.usage.toolCalls == 0 then 1 else observation.usage.toolCalls)
    ensures counted.(usage := observation.usage, evidence := observation.evidence) == observation
    ensures observation.usage.toolCalls > 0 ==> counted == observation
  {
    if observation.usage.toolCalls == 0 then
      observation.(
        evidence := observation.evidence + [EffectEvidence(UsageEvidence, hashes.tagged(KnownAttempt(effectDigest)), None)],
        usage := observation.usage.(toolCalls := 1))
    else observation
  }

  /** Why a counted observation cannot be believed, if it cannot. */
  function DistrustReason(config: RuntimeConfig, request: EffectRequest, observation: Observation): Option<Word> {
    if observation.sandboxProfile != Some(request.sandboxProfile) then Some(UntrustedSandbox)
    else if observation.executor != Some(config.executor) then Some(UntrustedExecutor)
    else None
  }
}

/** The six deterministic gates. Inputs are typed; a missing or ill-typed JSON field is `None`. */
module RunCoordinator {
  import opened Text
  import opened Contracts

  datatype PolicyDecision = PolicyAllow | PolicyAsk | PolicyDeny

  datatype PolicyField = NullPolicy | Policy(decision: PolicyDecision) | IllTypedPolicy

  datatype RiskTag = DestructiveFlag | DestructivePath | OtherTag(text: string)

  datatype UsageStatus = KnownUsage | MissingUsage | AmbiguousUsage

  datatype Boundary = MutationBoundary | CompletionBoundary

  /** An approval object; `approved` says whether its status reads "approved". */
  datatype ApprovalField = ApprovalField(approved: bool, subjectDigest: Option<string>, maxCost: Option<nat>)

  datatype PlanInput = PlanInput(subjectDigest: Option<string>, approval: Option<ApprovalField>)

  datatype PermissionInput = PermissionInput(
    actionDigest: Option<string>,
    policy: PolicyField,
    riskTags: Option<seq<RiskTag>>,
    wrapperChain: Option<seq<string>>,
    approval: Option<ApprovalField>)

  datatype ToolTrustInput = ToolTrustInput(
    capabilityName: Option<string>, capabilityDigest: Option<string>, approval: Option<ApprovalField>)

  datatype CommandEvidence = CommandEvidence(command: Option<string>, output: Option<string>, passed: bool)

  datatype ReportInput = ReportInput(
    verifierId: Option<string>, subjectDigest: Option<string>, verdict: Option<Verdict>, evidence: Option<seq<CommandEvidence>>)

  datatype VerificationInput = VerificationInput(
    subjectDigest: Option<string>, implementerId: Option<string>, report: Option<ReportInput>)

  datatype Thresholds = Thresholds(warn: Option<nat>, approval: Option<nat>, hardStop: Option<nat>)

  datatype RuntimeInput = RuntimeInput(
    actionDigest: Option<string>,
    usageStatus: Option<UsageStatus>,
    currentCost: Option<nat>,
    estimatedNext: Option<nat>,
    thresholds: Option<Thresholds>,
    approval: Option<ApprovalField>)

  datatype GateOutcomes = GateOutcomes(
    plan: Option<Outcome>, permission: Option<Outcome>, toolTrust: Option<Outcome>, runtime: Option<Outcome>, verification: Option<Outcome>)

  datatype WorkflowInput = WorkflowInput(
    boundary: Option<Boundary>, mutationAuthorized: Option<bool>, gateResults: Option<GateOutcomes>)

  /** The input of one gate evaluation. */
  datatype GateInput =
    | ForPlan(plan: PlanInput)
    | ForPermission(permission: PermissionInput)
    | ForToolTrust(toolTrust: ToolTrustInput)
    | ForVerification(verification: VerificationInput)
    | ForRuntime(runtime: RuntimeInput)
    | ForWorkflow(workflow: WorkflowInput)

  function Decide(outcome: Outcome, code: Word, effects: seq<Word>): (d: Decision)
    ensures d.outcome == outcome && d.code == Fixed(code) && DecisionIsRecordable(d)
  {
    Decision(outcome, Fixed(code), seq(|effects|, i requires 0 <= i < |effects| => Fixed(effects[i])))
  }

  /** Codes that the result checker reserves for drift. */
  const DRIFT_REASONS := {Fixed(StaleSubject), Fixed(CapabilitySchemaDrift), Fixed(SubjectAndSchemaDrift)}

  /** Recordable, and not claiming that the subject or the tool schema drifted. */
  predicate IsGateDecision(d: Decision) {
    DecisionIsRecordable(d) && d.code !in DRIFT_REASONS
  }

  /** What both checkers demand of every recorded decision. */
  predicate DecisionIsRecordable(d: Decision) {
    PhraseIsNonBlank(d.code) && forall e | e in d.effects :: PhraseIsNonBlank(e)
  }

  predicate IsDigestField(field: Option<string>) {
    field.Some? && IsDigest(field.value)
  }

  predicate IsTextField(field: Option<string>) {
    field.Some? && NonBlank(field.value)
  }

  predicate HasExactApproval(approval: Option<ApprovalField>, digest: string) {
    approval.Some? && approval.value.approved && approval.value.subjectDigest == Some(digest)
  }

  function EvaluatePlan(input: PlanInput): (d: Decision)
    ensures IsGateDecision(d) && !d.outcome.Ask?
    ensures d.outcome.Allow? <==>
            IsDigestField(input.subjectDigest) && HasExactApproval(input.approval, input.subjectDigest.value)
  {
    if !IsDigestField(input.subjectDigest) then
      Decide(Block, PlanInvalidInput, [StopMutation])
    else if input.approval.None? || !input.approval.value.approved then
      Decide(Block, PlanApprovalRequired, [StopMutation])
    else if input.approval.value.subjectDigest != input.subjectDigest then
      Decide(Block, PlanStaleApproval, [StopMutation, RequestNewPlanApproval])
    else
      Decide(Allow, PlanApprovedExact, [])
  }

  predicate PermissionInputIsValid(input: PermissionInput) {
    IsDigestField(input.actionDigest) && !input.policy.IllTypedPolicy? && input.riskTags.Some? && input.wrapperChain.Some?
  }

  /** Dangerous risk tags and wrapper chains need an exact approval whatever the policy says. */
  predicate NeedsException(input: PermissionInput)
    requires PermissionInputIsValid(input)
  {
    DestructiveFlag in input.riskTags.value || DestructivePath in input.riskTags.value || input.wrapperChain.value != []
  }

  function EvaluatePermission(input: PermissionInput): (d: Decision)
    ensures IsGateDecision(d)
    ensures d.outcome.Allow? <==>
            && PermissionInputIsValid(input)
            && input.policy != Policy(PolicyDeny)
            && (if NeedsException(input) || input.policy == Policy(PolicyAsk)
                then HasExactApproval(input.approval, input.actionDigest.value)
                else input.policy == Policy(PolicyAllow))
  {
    if !PermissionInputIsValid(input) then
      Decide(Block, PermissionInvalidInput, [StopAction])
    else
      var exact := HasExactApproval(input.approval, input.actionDigest.value);
      var tags := input.riskTags.value;
      if input.policy == Policy(PolicyDeny) then
        Decide(Block, PermissionDenied, [StopAction])
      else if DestructiveFlag in tags || DestructivePath in tags then
        if exact then Decide(Allow, PermissionApprovedException, [RecordActionApproval])
        else Decide(Ask, PermissionDangerous, [RequestActionApproval])
      else if input.wrapperChain.value != [] then
        if exact then Decide(Allow, PermissionApprovedException, [RecordActionApproval])
        else Decide(Ask, PermissionWrapper, [RequestActionApproval])
      else if input.policy == Policy(PolicyAsk) then
        if exact then Decide(Allow, PermissionApprovedException, [RecordActionApproval])
        else Decide(Ask, PermissionPolicyAsks, [RequestActionApproval])
      else if input.policy == Policy(PolicyAllow) then
        Decide(Allow, PermissionPolicyAllowed, [])
      else
        Decide(Ask, PermissionUnknownAction, [RequestActionApproval])
  }

  function EvaluateToolTrust(input: ToolTrustInput): (d: Decision)
    ensures IsGateDecision(d) && !d.outcome.Ask?
    ensures d.outcome.Allow? <==>
            && IsTextField(input.capabilityName)
            && IsDigestField(input.capabilityDigest)
            && HasExactApproval(input.approval, input.capabilityDigest.value)
  {
    if !IsTextField(input.capabilityName) || !IsDigestField(input.capabilityDigest) then
      Decide(Block, ToolTrustInvalidInput, [StopCapabilityActivation])
    else if input.approval.None? || !input.approval.value.approved then
      Decide(Block, ToolTrustApprovalRequired, [StopCapabilityActivation])
    else if input.approval.value.subjectDigest != input.capabilityDigest then
      Decide(Block, ToolTrustStaleApproval, [StopCapabilityActivation, RequestNewCapabilityApproval])
    else
      Decide(Allow, ToolTrustApprovedExact, [])
  }

  predicate CommandEvidenceIsValid(evidence: seq<CommandEvidence>) {
    evidence != [] && forall e | e in evidence :: IsTextField(e.command) && IsTextField(e.output) && e.passed
  }

  function EvaluateVerification(input: VerificationInput): (d: Decision)
    ensures IsGateDecision(d) && !d.outcome.Ask?
    ensures d.outcome.Allow? <==>
            && IsDigestField(input.subjectDigest)
            && IsTextField(input.implementerId)
            && input.report.Some?
            && IsTextField(input.report.value.verifierId)
            && input.report.value.verifierId != input.implementerId
            && input.report.value.subjectDigest == input.subjectDigest
            && input.report.value.evidence.Some?
            && CommandEvidenceIsValid(input.report.value.evidence.value)
            && input.report.value.verdict == Some(Pass)
  {
    if !IsDigestField(input.subjectDigest) || !IsTextField(input.implementerId) then
      Decide(Block, VerificationInvalidInput, [StopCompletion])
    else if input.report.None? then
      Decide(Block, VerificationReportRequired, [StopCompletion])
    else
      var report := input.report.value;
      if !IsTextField(report.verifierId) then
        Decide(Block, VerificationInvalidInput, [StopCompletion])
      else if report.verifierId == input.implementerId then
        Decide(Block, VerificationIndependenceRequired, [StopCompletion])
      else if report.subjectDigest != input.subjectDigest then
        Decide(Block, VerificationStaleSubject, [StopCompletion, RequestNewVerification])
      else if report.evidence.None? || !CommandEvidenceIsValid(report.evidence.value) then
        Decide(Block, VerificationEvidenceRequired, [StopCompletion])
      else if report.verdict != Some(Pass) then
        Decide(Block, VerificationPassRequired, [StopCompletion])
      else
        Decide(Allow, VerificationPassed, [RecordVerificationReceipt])
  }

  predicate IsSafeField(n: Option<nat>) {
    n.Some? && n.value <= MAX_SAFE_INTEGER
  }

  predicate ThresholdsAreValid(t: Thresholds) {
    IsSafeField(t.warn) && IsSafeField(t.approval) && IsSafeField(t.hardStop) && t.warn.value <= t.approval.value <= t.hardStop.value
  }

  /** The projected cost, when the current cost, the estimate and the thresholds form a usable budget. */
  function ProjectedCost(input: RuntimeInput): Option<nat> {
    if && IsSafeField(input.currentCost) && IsSafeField(input.estimatedNext)
       && input.thresholds.Some? && ThresholdsAreValid(input.thresholds.value)
       && input.currentCost.value + input.estimatedNext.value <= MAX_SAFE_INTEGER
    then Some(input.currentCost.value + input.estimatedNext.value)
    else None
  }

  function EvaluateRuntime(input: RuntimeInput): (d: Decision)
    ensures IsGateDecision(d)
    ensures d.outcome.Allow? <==>
            && IsDigestField(input.actionDigest)
            && input.usageStatus == Some(KnownUsage)
            && ProjectedCost(input).Some?
            && ProjectedCost(input).value < input.thresholds.value.hardStop.value
            && (ProjectedCost(input).value >= input.thresholds.value.approval.value ==>
                  && HasExactApproval(input.approval, input.actionDigest.value)
                  && IsSafeField(input.approval.value.maxCost)
                  && input.approval.value.maxCost.value >= ProjectedCost(input).value)
  {
    if !IsDigestField(input.actionDigest) || input.usageStatus.None? then
      Decide(Block, RuntimeInvalidInput, [StopExecution])
    else if ProjectedCost(input).None? then
      Decide(Block, RuntimeInvalidBudget, [StopExecution])
    else if input.usageStatus != Some(KnownUsage) then
      Decide(Block, RuntimeUsageUnknown, [StopExecution, RequestUsageReconciliation])
    else
      var projected := ProjectedCost(input).value;
      var thresholds := input.thresholds.value;
      if projected >= thresholds.hardStop.value then
        Decide(Block, RuntimeHardStop, [StopExecution, NotifyOperator])
      else if projected >= thresholds.approval.value then
        if && HasExactApproval(input.approval, input.actionDigest.value)
           && IsSafeField(input.approval.value.maxCost)
           && input.approval.value.maxCost.value >= projected
        then Decide(Allow, RuntimeOverageApproved, [RecordOverageApproval])
        else Decide(Ask, RuntimeApprovalRequired, [RequestOverageApproval])
      else if projected >= thresholds.warn.value then
        Decide(Allow, RuntimeWarning, [NotifyOperator])
      else
        Decide(Allow, RuntimeWithinBudget, [])
  }

  /** Whether one of the four gates before a mutation has this outcome. */
  predicate AnyIs(results: GateOutcomes, outcome: Option<Outcome>) {
    results.plan == outcome || results.permission == outcome || results.toolTrust == outcome || results.runtime == outcome
  }

  /** A block dominates an ask, and an ask dominates an allow. */
  function EvaluateWorkflow(input: WorkflowInput): (d: Decision)
    ensures IsGateDecision(d)
    ensures d.code == Fixed(MutationAuthorized) <==>
            && input.boundary == Some(MutationBoundary) && input.gateResults.Some?
            && input.gateResults.value.plan == Some(Allow) && input.gateResults.value.permission == Some(Allow)
            && input.gateResults.value.toolTrust == Some(Allow) && input.gateResults.value.runtime == Some(Allow)
    ensures d.code == Fixed(CompletionAuthorized) <==>
            && input.boundary == Some(CompletionBoundary) && input.gateResults.Some?
            && input.mutationAuthorized == Some(true) && input.gateResults.value.verification == Some(Allow)
    ensures d.outcome.Allow? <==> d.code in {Fixed(MutationAuthorized), Fixed(CompletionAuthorized)}
    ensures d.outcome.Ask? ==> input.boundary == Some(MutationBoundary)
  {
    if input.gateResults.None? || input.boundary.None? then
      Decide(Block, WorkflowInvalidInput, [if input.boundary == Some(MutationBoundary) then StopMutation else StopCompletion])
    else
      var results := input.gateResults.value;
      match input.boundary.value
      case MutationBoundary =>
        if AnyIs(results, None) then Decide(Block, WorkflowInvalidInput, [StopMutation])
        else if AnyIs(results, Some(Block)) then Decide(Block, MutationBlocked, [StopMutation])
        else if AnyIs(results, Some(Ask)) then Decide(Ask, MutationRequiresApproval, [PauseMutation])
        else
          OnlyAllowRemains(results.plan);
          OnlyAllowRemains(results.permission);
          OnlyAllowRemains(results.toolTrust);
          OnlyAllowRemains(results.runtime);
          Decide(Allow, MutationAuthorized, [RecordMutationAuthorization])
      case CompletionBoundary =>
        if input.mutationAuthorized.None? then
          Decide(Block, WorkflowInvalidInput, [StopCompletion])
        else if !input.mutationAuthorized.value then
          Decide(Block, MutationNotAuthorized, [StopCompletion])
        else if results.verification.None? then
          Decide(Block, WorkflowInvalidInput, [StopCompletion])
        else if results.verification != Some(Allow) then
          Decide(Block, VerificationFailed, [StopCompletion])
        else
          Decide(Allow, CompletionAuthorized, [RecordCompletion])
  }

  lemma OnlyAllowRemains(o: Option<Outcome>)
    requires o != None && o != Some(Block) && o != Some(Ask)
    ensures o == Some(Allow)
  {
    match o.value
    case Allow =>
    case Ask =>
    case Block =>
  }

  /** The coordinator's one entry point. */
  function Evaluate(input: GateInput): (d: Decision)
    ensures IsGateDecision(d)
  {
    match input
    case ForPlan(i) => EvaluatePlan(i)
    case ForPermission(i) => EvaluatePermission(i)
    case ForToolTrust(i) => EvaluateToolTrust(i)
    case ForVerification(i) => EvaluateVerification(i)
    case ForRuntime(i) => EvaluateRuntime(i)
    case ForWorkflow(i) => EvaluateWorkflow(i)
  }

  // ---- What each code means ----

  /** The one decision that goes with a code; only a malformed workflow input stops what its boundary is about. */
  function DecisionFor(code: Word): Decision {
    match code
    case PlanInvalidInput => Decide(Block, code, [StopMutation])
    case PlanApprovalRequired => Decide(Block, code, [StopMutation])
    case PlanStaleApproval => Decide(Block, code, [StopMutation, RequestNewPlanApproval])
    case PlanApprovedExact => Decide(Allow, code, [])
    case PermissionInvalidInput => Decide(Block, code, [StopAction])
    case PermissionDenied => Decide(Block, code, [StopAction])
    case PermissionApprovedException => Decide(Allow, code, [RecordActionApproval])
    case PermissionDangerous => Decide(Ask, code, [RequestActionApproval])
    case PermissionWrapper => Decide(Ask, code, [RequestActionApproval])
    case PermissionPolicyAsks => Decide(Ask, code, [RequestActionApproval])
    case PermissionUnknownAction => Decide(Ask, code, [RequestActionApproval])
    case PermissionPolicyAllowed => Decide(Allow, code, [])
    case ToolTrustInvalidInput => Decide(Block, code, [StopCapabilityActivation])
    case ToolTrustApprovalRequired => Decide(Block, code, [StopCapabilityActivation])
    case ToolTrustStaleApproval => Decide(Block, code, [StopCapabilityActivation, RequestNewCapabilityApproval])
    case ToolTrustApprovedExact => Decide(Allow, code, [])
    case VerificationStaleSubject => Decide(Block, code, [StopCompletion, RequestNewVerification])
    case VerificationPassed => Decide(Allow, code, [RecordVerificationReceipt])
    case RuntimeInvalidInput => Decide(Block, code, [StopExecution])
    case RuntimeInvalidBudget => Decide(Block, code, [StopExecution])
    case RuntimeUsageUnknown => Decide(Block, code, [StopExecution, RequestUsageReconciliation])
    case RuntimeHardStop => Decide(Block, code, [StopExecution, NotifyOperator])
    case RuntimeOverageApproved => Decide(Allow, code, [RecordOverageApproval])
    case RuntimeApprovalRequired => Decide(Ask, code, [RequestOverageApproval])
    case RuntimeWarning => Decide(Allow, code, [NotifyOperator])
    case RuntimeWithinBudget => Decide(Allow, code, [])
    case MutationBlocked => Decide(Block, code, [StopMutation])
    case MutationRequiresApproval => Decide(Ask, code, [PauseMutation])
    case MutationAuthorized => Decide(Allow, code, [RecordMutationAuthorization])
    case CompletionAuthorized => Decide(Allow, code, [RecordCompletion])
    case _ => Decide(Block, code, [StopCompletion])
  }

  predicate Approves(approval: Option<ApprovalField>, digest: Option<string>) {
    approval.Some? && approval.value.approved && digest.Some? && approval.value.subjectDigest == digest
  }

  predicate NamesDigest(field: Option<string>) {
    field.Some? && IsDigest(field.value)
  }

  predicate NamesText(field: Option<string>) {
    field.Some? && NonBlank(field.value)
  }

  predicate IsDangerous(tag: RiskTag) {
    tag.DestructiveFlag? || tag.DestructivePath?
  }

  /** The plan gate's answer for every input. */
  lemma PlanDecides(input: PlanInput)
    ensures var valid, approved := NamesDigest(input.subjectDigest), input.approval.Some? && input.approval.value.approved;
            EvaluatePlan(input) == DecisionFor(
              if !valid then PlanInvalidInput
              else if Approves(input.approval, input.subjectDigest) then PlanApprovedExact
              else if approved then PlanStaleApproval
              else PlanApprovalRequired)
  {
  }

  /** The code of a permission decision says all of it. */
  lemma PermissionIsItsCode(input: PermissionInput)
    ensures var d := EvaluatePermission(input); d.code.Fixed? && d == DecisionFor(d.code.word)
  {
    hide IsDigest, NonBlank;
  }

  /** Which code the permission gate gives: each condition stands by itself. */
  lemma PermissionDecides(input: PermissionInput)
    ensures var code := EvaluatePermission(input).code;
            var valid := NamesDigest(input.actionDigest) && !input.policy.IllTypedPolicy? && input.riskTags.Some? && input.wrapperChain.Some?;
            var open := valid && input.policy != Policy(PolicyDeny);
            var dangerous := input.riskTags.Some? && exists tag | tag in input.riskTags.value :: IsDangerous(tag);
            var wrapped := input.wrapperChain.Some? && |input.wrapperChain.value| > 0;
            var approved := Approves(input.approval, input.actionDigest);
            && (code == Fixed(PermissionInvalidInput) <==> !valid)
            && (code == Fixed(PermissionDenied) <==> valid && input.policy == Policy(PolicyDeny))
            && (code == Fixed(PermissionDangerous) <==> open && dangerous && !approved)
            && (code == Fixed(PermissionWrapper) <==> open && !dangerous && wrapped && !approved)
            && (code == Fixed(PermissionPolicyAsks) <==> open && !dangerous && !wrapped && input.policy == Policy(PolicyAsk) && !approved)
            && (code == Fixed(PermissionUnknownAction) <==> open && !dangerous && !wrapped && input.policy.NullPolicy?)
            && (code == Fixed(PermissionApprovedException) <==> open && (dangerous || wrapped || input.policy == Policy(PolicyAsk)) && approved)
            && (code == Fixed(PermissionPolicyAllowed) <==> open && !dangerous && !wrapped && input.policy == Policy(PolicyAllow))
  {
    hide IsDigest, Decide, IsGateDecision;
    var tags := if input.riskTags.Some? then input.riskTags.value else [];
    assert (exists tag | tag in tags :: IsDangerous(tag)) <==> DestructiveFlag in tags || DestructivePath in tags;
    match input.policy {
      case NullPolicy =>
      case IllTypedPolicy =>
      case Policy(decision) => DecisionIsOneOfThree(decision);
    }
  }

  lemma DecisionIsOneOfThree(decision: PolicyDecision)
    ensures decision.PolicyAllow? || decision.PolicyAsk? || decision.PolicyDeny?
  {
  }

  /** When the permission gate blocks, asks and allows. */
  lemma PermissionOutcome(input: PermissionInput)
    ensures var d := EvaluatePermission(input);
            var valid := NamesDigest(input.actionDigest) && !input.policy.IllTypedPolicy? && input.riskTags.Some? && input.wrapperChain.Some?;
            var exceptional :=
              || (input.riskTags.Some? && exists tag | tag in input.riskTags.value :: IsDangerous(tag))
              || (input.wrapperChain.Some? && |input.wrapperChain.value| > 0)
              || input.policy == Policy(PolicyAsk);
            var permitted := if exceptional then Approves(input.approval, input.actionDigest) else input.policy == Policy(PolicyAllow);
            && (d.outcome.Block? <==> !valid || input.policy == Policy(PolicyDeny))
            && (d.outcome.Ask? <==> valid && input.policy != Policy(PolicyDeny) && !permitted)
            && (d.outcome.Allow? <==> valid && input.policy != Policy(PolicyDeny) && permitted)
  {
    PermissionDecides(input);
  }

  /** The tool gate's answer for every input. */
  lemma ToolTrustDecides(input: ToolTrustInput)
    ensures var approved := input.approval.Some? && input.approval.value.approved;
            EvaluateToolTrust(input) == DecisionFor(
              if !NamesText(input.capabilityName) || !NamesDigest(input.capabilityDigest) then ToolTrustInvalidInput
              else if Approves(input.approval, input.capabilityDigest) then ToolTrustApprovedExact
              else if approved then ToolTrustStaleApproval
              else ToolTrustApprovalRequired)
  {
  }

  /** The code of a verification decision says all of it. */
  lemma VerificationIsItsCode(input: VerificationInput)
    ensures var d := EvaluateVerification(input); d.code.Fixed? && d == DecisionFor(d.code.word)
  {
    hide IsDigest, NonBlank;
  }

  /** The verification gate's answer: the first thing that is missing, from the input to the verdict. */
  lemma VerificationDecides(input: VerificationInput)
    ensures var d := EvaluateVerification(input);
            var named := NamesDigest(input.subjectDigest) && NamesText(input.implementerId);
            var reported := named && input.report.Some? && NamesText(input.report.value.verifierId);
            var independent := reported && input.report.value.verifierId != input.implementerId;
            var current := independent && input.report.value.subjectDigest == input.subjectDigest;
            var proved := current && input.report.value.evidence.Some? && |input.report.value.evidence.value| > 0
                          && forall e | e in input.report.value.evidence.value :: NamesText(e.command) && NamesText(e.output) && e.passed;
            && (d.code == Fixed(VerificationReportRequired) <==> named && input.report.None?)
            && (d.code == Fixed(VerificationInvalidInput) <==> !named || (input.report.Some? && !reported))
            && (d.code == Fixed(VerificationIndependenceRequired) <==> reported && !independent)
            && (d.code == Fixed(VerificationStaleSubject) <==> independent && !current)
            && (d.code == Fixed(VerificationEvidenceRequired) <==> current && !proved)
            && (d.code == Fixed(VerificationPassRequired) <==> proved && input.report.value.verdict != Some(Pass))
            && (d.code == Fixed(VerificationPassed) <==> proved && input.report.value.verdict == Some(Pass))
  {
    hide IsDigest, NonBlank, Decide, DecisionFor, IsGateDecision;
  }

  /** The code of a runtime decision says all of it. */
  lemma RuntimeIsItsCode(input: RuntimeInput)
    ensures var d := EvaluateRuntime(input); d.code.Fixed? && d == DecisionFor(d.code.word)
  {
    hide IsDigest, NonBlank;
  }

  /** The runtime gate's answer for every input. */
  lemma RuntimeDecides(input: RuntimeInput)
    ensures var d := EvaluateRuntime(input);
            var valid := NamesDigest(input.actionDigest) && input.usageStatus.Some?;
            var t := input.thresholds;
            var usable :=
              && input.currentCost.Some? && input.estimatedNext.Some? && t.Some?
              && t.value.warn.Some? && t.value.approval.Some? && t.value.hardStop.Some?
              && input.currentCost.value + input.estimatedNext.value <= MAX_SAFE_INTEGER
              && t.value.warn.value <= t.value.approval.value <= t.value.hardStop.value <= MAX_SAFE_INTEGER;
            var known := valid && usable && input.usageStatus == Some(KnownUsage);
            && (d.code == Fixed(RuntimeInvalidInput) <==> !valid)
            && (d.code == Fixed(RuntimeInvalidBudget) <==> valid && !usable)
            && (d.code == Fixed(RuntimeUsageUnknown) <==> valid && usable && input.usageStatus != Some(KnownUsage))
            && (known ==>
                  var projected := input.currentCost.value + input.estimatedNext.value;
                  var covered :=
                    && Approves(input.approval, input.actionDigest) && input.approval.value.maxCost.Some?
                    && projected <= input.approval.value.maxCost.value <= MAX_SAFE_INTEGER;
                  d == DecisionFor(
                    if t.value.hardStop.value <= projected then RuntimeHardStop
                    else if t.value.approval.value <= projected then (if covered then RuntimeOverageApproved else RuntimeApprovalRequired)
                    else if t.value.warn.value <= projected then RuntimeWarning
                    else RuntimeWithinBudget))
  {
    hide IsDigest, Decide, IsGateDecision, DecisionFor;
    RuntimeIsItsCode(input);
  }

  /** The mutation boundary: a block of any gate before it dominates an ask of any other, and an ask dominates the allows. */
  lemma MutationDecides(input: WorkflowInput)
    requires input.boundary == Some(MutationBoundary)
    ensures var d := EvaluateWorkflow(input);
            var gates := if input.gateResults.None? then [None]
                         else [input.gateResults.value.plan, input.gateResults.value.permission, input.gateResults.value.toolTrust, input.gateResults.value.runtime];
            d == if None in gates then Decide(Block, WorkflowInvalidInput, [StopMutation])
                 else DecisionFor(if Some(Block) in gates then MutationBlocked else if Some(Ask) in gates then MutationRequiresApproval else MutationAuthorized)
  {
  }

  /** The completion boundary: prior authorisation first, then the verification. */
  lemma CompletionDecides(input: WorkflowInput)
    requires input.boundary != Some(MutationBoundary)
    ensures var d := EvaluateWorkflow(input);
            var missing := input.boundary.None? || input.gateResults.None? || input.mutationAuthorized.None?
                           || (input.mutationAuthorized.value && input.gateResults.value.verification.None?);
            d == DecisionFor(
              if missing then WorkflowInvalidInput
              else if !input.mutationAuthorized.value then MutationNotAuthorized
              else if input.gateResults.value.verification == Some(Allow) then CompletionAuthorized
              else VerificationFailed)
  {
  }
}

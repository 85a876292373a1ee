/** What each gate answers under a run's configuration, stated on the configuration alone. */
module ConfiguredGates {
  import opened Text
  import opened Contracts
  import opened UsageArithmetic
  import opened RunCoordinator
  import opened RuntimeModel

  lemma DecideKeeps(outcome: Outcome, code: Word, effects: seq<Word>)
    ensures |Decide(outcome, code, effects).effects| == |effects|
    ensures forall i | 0 <= i < |effects| :: Decide(outcome, code, effects).effects[i] == Fixed(effects[i])
  {
  }

  // ---- Plan ----

  /** The plan of an admitted run passes exactly when the run carries any approval, which is then one of its own subject. */
  lemma PlanIsApproved(run: AgentRunRequest)
    requires RequestIsSound(run)
    ensures var d := Evaluate(PlanInputFor(run.subject.digest, PlanApprovalFor(run.approvals, run.subject.digest)));
            d == DecisionFor(if run.approvals != [] then PlanApprovedExact else PlanApprovalRequired)
  {
    hide EvaluatePlan, DecisionFor, IsDigest, ApprovalIsValid;
    var approval := PlanApprovalFor(run.approvals, run.subject.digest);
    PlanDecides(PlanInput(Some(run.subject.digest), if approval.None? then None else Some(ApprovalField(true, Some(approval.value.subjectDigest), None))));
    assert run.approvals != [] ==> run.approvals[0] in run.approvals;
  }

  // ---- Permission ----

  /** A dangerous tag, a wrapper chain or an asking policy calls for an approval of the very effect. */
  predicate CallsForApproval(policy: PermissionPolicy) {
    (exists tag | tag in policy.riskTags :: IsDangerous(tag)) || |policy.wrapperChain| > 0 || policy.decision == Some(PolicyAsk)
  }

  predicate HasApprovalOf(approvals: seq<GateApproval>, effectDigest: string) {
    exists a | a in approvals :: a.subjectDigest == effectDigest
  }

  /** The policy permits the effect. */
  predicate PolicyPermits(policy: PermissionPolicy, effectDigest: string) {
    && policy.decision != Some(PolicyDeny)
    && if CallsForApproval(policy) then HasApprovalOf(policy.approvals, effectDigest) else policy.decision == Some(PolicyAllow)
  }

  lemma FoundIsApproval(approvals: seq<GateApproval>, effectDigest: string)
    ensures ApprovalFor(approvals, effectDigest).Some? <==> HasApprovalOf(approvals, effectDigest)
    ensures ApprovalFor(approvals, effectDigest).Some? ==> ApprovalFor(approvals, effectDigest).value.subjectDigest == effectDigest
  {
    var found := ApprovalFor(approvals, effectDigest);
    if found.Some? {
      assert found.value in approvals;
    }
  }

  /** The permission gate blocks a denied effect, asks when the policy does not permit it, and otherwise allows it. */
  lemma PermissionFollowsPolicy(policy: PermissionPolicy, effectDigest: string)
    requires IsDigest(effectDigest)
    ensures var d := Evaluate(PermissionInputFor(effectDigest, policy));
            var dangerous := exists tag | tag in policy.riskTags :: IsDangerous(tag);
            d == DecisionFor(
              if policy.decision == Some(PolicyDeny) then PermissionDenied
              else if PolicyPermits(policy, effectDigest) then (if CallsForApproval(policy) then PermissionApprovedException else PermissionPolicyAllowed)
              else if dangerous then PermissionDangerous
              else if policy.wrapperChain != [] then PermissionWrapper
              else if policy.decision == Some(PolicyAsk) then PermissionPolicyAsks
              else PermissionUnknownAction)
  {
    hide EvaluatePermission, DecisionFor, IsDigest, ApprovalFor;
    FoundIsApproval(policy.approvals, effectDigest);
    if policy.decision.Some? {
      DecisionIsOneOfThree(policy.decision.value);
    }
    var input := PermissionInputFor(effectDigest, policy).permission;
    PermissionDecides(input);
    PermissionIsItsCode(input);
  }

  // ---- Tool trust ----

  /** The capability is trusted, and pinned with its schema where pins are configured. */
  predicate ToolIsTrusted(support: RuntimeSupport, capability: CapabilityIdentity, schemaDigest: Option<string>) {
    && (exists c | c in support.trustedCapabilities :: c == capability)
    && (support.trustedSchemas.Some? ==>
          exists pin | pin in support.trustedSchemas.value :: pin.capability == capability && schemaDigest == Some(pin.schemaDigest))
  }

  lemma ToolTrustFollowsSupport(support: RuntimeSupport, capability: CapabilityIdentity, schemaDigest: Option<string>)
    requires NonBlank(capability.name) && IsDigest(capability.digest)
    ensures Evaluate(ToolTrustInputFor(support, capability, schemaDigest)) ==
            DecisionFor(if ToolIsTrusted(support, capability, schemaDigest) then ToolTrustApprovedExact else ToolTrustApprovalRequired)
  {
    hide EvaluateToolTrust, DecisionFor, IsDigest, NonBlank;
    var input := ToolTrustInputFor(support, capability, schemaDigest).toolTrust;
    ToolTrustDecides(input);
    if TrustsTool(support, capability, schemaDigest) && support.trustedSchemas.Some? {
      assert TrustedToolSchema(capability, schemaDigest.value) in support.trustedSchemas.value;
    }
  }

  // ---- Runtime ----

  /** The first approval for the effect, if there is one, covers this cost. */
  predicate CostIsCovered(approvals: seq<GateApproval>, effectDigest: string, cost: nat) {
    exists i | 0 <= i < |approvals| ::
      && approvals[i].subjectDigest == effectDigest
      && (forall j | 0 <= j < i :: approvals[j].subjectDigest != effectDigest)
      && approvals[i].maxCost.Some? && cost <= approvals[i].maxCost.value
  }

  lemma {:induction false} FoundIsFirst(approvals: seq<GateApproval>, effectDigest: string, cost: nat)
    ensures var found := ApprovalFor(approvals, effectDigest);
            CostIsCovered(approvals, effectDigest, cost) <==> found.Some? && found.value.maxCost.Some? && cost <= found.value.maxCost.value
  {
    if approvals != [] {
      var rest := approvals[1..];
      FoundIsFirst(rest, effectDigest, cost);
      if approvals[0].subjectDigest == effectDigest {
        assert CostIsCovered(approvals, effectDigest, cost) <==> approvals[0].maxCost.Some? && cost <= approvals[0].maxCost.value;
      } else {
        assert forall i | 0 <= i < |rest| :: rest[i] == approvals[i + 1];
        if CostIsCovered(rest, effectDigest, cost) {
          var i :| 0 <= i < |rest| && rest[i].subjectDigest == effectDigest && (forall j | 0 <= j < i :: rest[j].subjectDigest != effectDigest)
                   && rest[i].maxCost.Some? && cost <= rest[i].maxCost.value;
          assert approvals[i + 1] == rest[i];
          assert forall j | 0 <= j < i + 1 :: approvals[j].subjectDigest != effectDigest;
        }
        if CostIsCovered(approvals, effectDigest, cost) {
          var i :| 0 <= i < |approvals| && approvals[i].subjectDigest == effectDigest
                   && (forall j | 0 <= j < i :: approvals[j].subjectDigest != effectDigest)
                   && approvals[i].maxCost.Some? && cost <= approvals[i].maxCost.value;
          assert rest[i - 1] == approvals[i];
          assert forall j | 0 <= j < i - 1 :: rest[j].subjectDigest != effectDigest;
        }
      }
    }
  }

  /** The runtime gate under valid thresholds: what the projected cost and the approvals say. */
  lemma RuntimeFollowsThresholds(support: RuntimeSupport, config: RuntimeConfig, run: AgentRunRequest, currentCost: nat, effectDigest: string)
    requires IsDigest(effectDigest) && ConfigIsValid(config, run) && SupportIsValid(support)
    ensures var d := Evaluate(RuntimeInputFor(support, config, currentCost, effectDigest));
            var projected := currentCost + support.estimate.cost;
            d == DecisionFor(
              if projected > MAX_SAFE_INTEGER then RuntimeInvalidBudget
              else if config.thresholds.hardStop <= projected then RuntimeHardStop
              else if config.thresholds.approval <= projected then
                (if CostIsCovered(support.runtimeApprovals, effectDigest, projected) then RuntimeOverageApproved else RuntimeApprovalRequired)
              else if config.thresholds.warn <= projected then RuntimeWarning
              else RuntimeWithinBudget)
  {
    hide EvaluateRuntime, DecisionFor, IsDigest, ApprovalFor, NonBlank, IdentityIsValid, CostIsCovered;
    var projected := currentCost + support.estimate.cost;
    FoundIsApproval(support.runtimeApprovals, effectDigest);
    FoundIsFirst(support.runtimeApprovals, effectDigest, projected);
    var approval := ApprovalFor(support.runtimeApprovals, effectDigest);
    assert approval.Some? ==> approval.value in support.runtimeApprovals by {
      FoundIsListed(support.runtimeApprovals, effectDigest);
    }
    var input := RuntimeInputFor(support, config, currentCost, effectDigest).runtime;
    RuntimeDecides(input);
    RuntimeIsItsCode(input);
  }

  lemma FoundIsListed(approvals: seq<GateApproval>, effectDigest: string)
    ensures ApprovalFor(approvals, effectDigest).Some? ==> ApprovalFor(approvals, effectDigest).value in approvals
  {
  }

  // ---- Workflow ----

  /** The mutation boundary follows the three gates before it; a plan that reached execution counts as allowed. */
  lemma MutationFollowsGates(permission: Decision, toolTrust: Decision, runtime: Decision)
    ensures var outcomes := [permission.outcome, toolTrust.outcome, runtime.outcome];
            Evaluate(MutationInputFor(permission, toolTrust, runtime)) ==
            DecisionFor(if Block in outcomes then MutationBlocked else if Ask in outcomes then MutationRequiresApproval else MutationAuthorized)
  {
    hide EvaluateWorkflow, DecisionFor;
    MutationDecides(MutationInputFor(permission, toolTrust, runtime).workflow);
  }

  lemma CompletionFollowsVerification(verification: Decision, authorized: bool)
    ensures Evaluate(CompletionInputFor(verification, authorized)) ==
            DecisionFor(if !authorized then MutationNotAuthorized else if verification.outcome.Allow? then CompletionAuthorized else VerificationFailed)
  {
    hide EvaluateWorkflow, DecisionFor;
    CompletionDecides(CompletionInputFor(verification, authorized).workflow);
  }

  // ---- Verification ----

  /** The verification gate's answer to a report: the first thing that is wrong with it. */
  lemma VerificationFollowsReport(config: RuntimeConfig, subjectDigest: string, report: Report)
    requires IsDigest(subjectDigest) && NonBlank(config.implementerId)
    ensures Evaluate(VerificationInputFor(config, subjectDigest, report)) ==
            DecisionFor(
              if !NonBlank(report.verifierId) then VerificationInvalidInput
              else if report.verifierId == config.implementerId then VerificationIndependenceRequired
              else if report.subjectDigest != subjectDigest then VerificationStaleSubject
              else if report.evidence == [] || exists e | e in report.evidence :: !NonBlank(e.digest) then VerificationEvidenceRequired
              else if report.verdict.Fail? then VerificationPassRequired
              else VerificationPassed)
  {
    hide EvaluateVerification, DecisionFor, IsDigest, NonBlank;
    var input := VerificationInputFor(config, subjectDigest, report).verification;
    CommandsMean(report.evidence);
    VerificationDecides(input);
    VerificationIsItsCode(input);
    VerdictIsEither(report.verdict);
  }

  lemma VerdictIsEither(verdict: Verdict)
    ensures verdict.Pass? || verdict.Fail?
  {
  }

  /** Each piece of evidence becomes one passed command whose output is the digest. */
  lemma CommandsMean(evidence: seq<Evidence>)
    ensures |CommandsFor(evidence)| == |evidence|
    ensures (forall c | c in CommandsFor(evidence) :: NamesText(c.command) && NamesText(c.output) && c.passed) <==>
            forall e | e in evidence :: NonBlank(e.digest)
  {
    hide NonBlank;
    var commands := CommandsFor(evidence);
    forall e | e in evidence && (forall c | c in commands :: NamesText(c.command) && NamesText(c.output) && c.passed) ensures NonBlank(e.digest) {
      var i :| 0 <= i < |evidence| && evidence[i] == e;
      assert commands[i] in commands;
    }
    forall c | c in commands && (forall e | e in evidence :: NonBlank(e.digest)) ensures NamesText(c.command) && NamesText(c.output) && c.passed {
      var i :| 0 <= i < |commands| && commands[i] == c;
      assert evidence[i] in evidence;
    }
  }
}

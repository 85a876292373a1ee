/** How a run ends, computed from the request, the configuration and the replies alone: no ledger and no events. */
module RunEndings {
  import opened Text
  import opened Contracts
  import opened UsageArithmetic
  import opened RunCoordinator
  import opened RuntimeModel
  import opened ResultChecker
  import opened EffectResults
  import opened LedgerFacts
  import opened EffectSteps

  /** A terminal status and its reason; a reported cancellation takes the place of an ending that is not firm. */
  datatype Ending = Ending(status: RunStatus, reason: Phrase, firm: bool)

  /** What the replies of one run are judged by. */
  datatype Setting = Setting(support: RuntimeSupport, config: RuntimeConfig, script: PortScript, run: AgentRunRequest)

  function Blocking(decision: Decision): Ending {
    Ending(Blocked, decision.code, decision.outcome.Ask?)
  }

  function PortFailure(error: PortError, why: Word): Ending {
    Ending(RunStatus.Failed, Prefixed(why, Verbatim(error.message)), false)
  }

  /** The end a charge brings, if it does: overflow first, then the budget. */
  function ChargeEnding(usage: Usage, charge: Usage, budget: ResourceBudget): Option<Ending> {
    var reason := ChargeReason(usage, charge, budget);
    if reason.None? then None else Some(Ending(Blocked, Fixed(reason.value), false))
  }

  /** The end that a reply with usage brings by itself: the port failed, or its usage does not fit. */
  function ReplyEnding<T>(reply: PortReply<T>, why: Word, usage: Usage, budget: ResourceBudget): Option<Ending> {
    match reply
    case Failure(error) => Some(PortFailure(error, why))
    case Success(observed) => ChargeEnding(usage, observed.usage, budget)
  }

  function PlanDecision(run: AgentRunRequest): Decision {
    Evaluate(PlanInputFor(run.subject.digest, PlanApprovalFor(run.approvals, run.subject.digest)))
  }

  function PlanEnding(s: Setting): Option<Ending> {
    var byReply := ReplyEnding(s.script.plan, AdapterPlanFailed, ZERO_USAGE, s.run.budget);
    if byReply.Some? then byReply
    else if !IsDigest(s.script.plan.value.value) then Some(Ending(RunStatus.Failed, Fixed(PlanInvalidDigest), false))
    else if !PlanDecision(s.run).outcome.Allow? then Some(Blocking(PlanDecision(s.run)))
    else None
  }

  // ---- One effect ----

  predicate Repeats(hashes: Hashes, accepted: seq<EffectRequest>, request: EffectRequest) {
    exists e | e in accepted ::
      e.effectId == request.effectId || hashes.effect(e) == hashes.effect(request) || e.idempotencyKey == request.idempotencyKey
  }

  /** Why a proposal is not admitted to the gates, in the order of the tests. */
  function AdmissionEnding(s: Setting, usage: Usage, subject: Subject, accepted: seq<EffectRequest>, request: EffectRequest): Option<Ending> {
    var budget := BudgetAdmission(usage, s.run.budget, s.support.estimate);
    if CheckEffectRequest(s.support.contracts, s.run, request).Some? then Some(Ending(RunStatus.Failed, Fixed(InvalidEffectRequest), false))
    else if request.subject != subject then Some(Ending(Blocked, Fixed(StaleSubject), false))
    else if request.effectSequence != |accepted| + 1 then Some(Ending(Blocked, Fixed(EffectSequenceInvalid), false))
    else if |accepted| >= s.config.maxEffects then Some(Ending(Blocked, Fixed(MaxEffectsExhausted), false))
    else if Repeats(s.support.contracts.hashes, accepted, request) then Some(Ending(Blocked, Fixed(DuplicateEffect), false))
    else if budget.Some? then Some(Blocking(budget.value))
    else None
  }

  /** The first gate that does not allow ends the run. */
  function GateEnding(gates: Gates): Option<Ending> {
    if !gates.permission.outcome.Allow? then Some(Blocking(gates.permission))
    else if !gates.toolTrust.outcome.Allow? then Some(Blocking(gates.toolTrust))
    else if !gates.runtime.outcome.Allow? then Some(Blocking(gates.runtime))
    else if gates.workflow.Some? && !gates.workflow.value.outcome.Allow? then Some(Blocking(gates.workflow.value))
    else None
  }

  /** How a trusted attempt with this status ends the run, if it does; `None` means that it was executed. */
  function AttemptEnding(status: ExecutionStatus): Option<(RunStatus, Word)> {
    match status
    case Executed => None
    case AuthorityAwaited => Some((Blocked, EffectAwaitsAuthority))
    case Denied => Some((Blocked, EffectWasDenied))
    case EffectFailed => Some((RunStatus.Failed, EffectHasFailed))
    case EffectInterrupted => Some((Interrupted, EffectWasInterrupted))
    case UnknownOutcome => Some((RunStatus.Failed, EffectOutcomeUnknown))
  }

  /** The end of a trusted attempt: by its status, or by what it used. */
  function TrustedEnding(usage: Usage, observation: Observation, budget: ResourceBudget): Option<Ending> {
    var byStatus := AttemptEnding(observation.status);
    if byStatus.Some? then Some(Ending(byStatus.value.0, Fixed(byStatus.value.1), byStatus.value.0.Interrupted?))
    else ChargeEnding(usage, observation.usage, budget)
  }

  /** The end that the executor's reply brings, if it does. */
  function ExecutionEnding(s: Setting, usage: Usage, request: EffectRequest, reply: Result<Observation, PortError>): Option<Ending> {
    match reply
    case Failure(error) =>
      if error.notDispatched then Some(Ending(Blocked, Fixed(ExecutorNotDispatched), false))
      else
        var byUsage := ChargeEnding(usage, LostResponseUsage(error), s.run.budget);
        if byUsage.Some? then byUsage else Some(Ending(RunStatus.Failed, Fixed(EffectOutcomeUnknown), false))
    case Success(o) =>
      if !o.status.IsAttempt() then Some(Blocking(ExecutorDecline(o)))
      else
        var counted := CountAttempt(s.support.contracts.hashes, s.support.contracts.hashes.effect(request), o);
        var distrust := DistrustReason(s.config, request, counted);
        if distrust.Some? then Some(Ending(RunStatus.Failed, Fixed(distrust.value), false))
        else TrustedEnding(usage, counted, s.run.budget)
  }

  /** The end that a proposal brings before the executor is called. */
  function ClearanceEnding(s: Setting, usage: Usage, subject: Subject, accepted: seq<EffectRequest>, request: EffectRequest): Option<Ending> {
    var byAdmission := AdmissionEnding(s, usage, subject, accepted, request);
    if byAdmission.Some? then byAdmission
    else GateEnding(GatesFor(s.support, s.config, usage.cost, request, s.support.contracts.hashes.effect(request)))
  }

  /** The end that a proposal brings when `accepted` were executed before it. */
  function EffectEnding(s: Setting, usage: Usage, subject: Subject, accepted: seq<EffectRequest>, request: EffectRequest): Option<Ending> {
    var byClearance := ClearanceEnding(s, usage, subject, accepted, request);
    if byClearance.Some? then byClearance
    else ExecutionEnding(s, usage, request, s.script.executions(|accepted|))
  }

  // ---- Verification and completion ----

  function VerificationDecision(config: RuntimeConfig, subjectDigest: string, report: Report): Decision {
    Evaluate(VerificationInputFor(config, subjectDigest, report))
  }

  /** The end that a verification report brings, if it does. */
  function ReportEnding(s: Setting, report: Report, subjectDigest: string): Option<Ending> {
    var decision := VerificationDecision(s.config, subjectDigest, report);
    if report.verifierId !in s.support.trustedVerifiers then Some(Ending(Blocked, Fixed(UntrustedVerifier), false))
    else if !decision.outcome.Allow? then Some(Ending(Blocked, decision.code, false))
    else if !ReportIsReceiptSafe(s.run, s.config.implementerId, report) then Some(Ending(Blocked, Fixed(InvalidReport), false))
    else None
  }

  function VerificationEnding(s: Setting, usage: Usage, subjectDigest: string): Option<Ending> {
    var byReply := ReplyEnding(s.script.verification, VerifierFailed, usage, s.run.budget);
    if byReply.Some? then byReply else ReportEnding(s, s.script.verification.value.value, subjectDigest)
  }

  function RecheckEnding(s: Setting, usage: Usage): Option<Ending> {
    ReplyEnding(s.script.completionCheck, CompletionCheckFailed, usage, s.run.budget)
  }

  /** The agent's claim comes first; the executor's is asked only when the agent reports no cancellation. */
  function Claim(script: PortScript): Result<Option<Cancellation>, PortError> {
    if script.agentClaim.Success? && script.agentClaim.value.None? then script.executorClaim else script.agentClaim
  }

  /** The end of a verified and authorised run. */
  function ClaimEnding(script: PortScript): Ending {
    match Claim(script)
    case Failure(error) => PortFailure(error, CompletionClaimFailed)
    case Success(Some(_)) => Ending(Interrupted, Fixed(RuntimeInterrupted), true)
    case Success(None) => Ending(Completed, Fixed(CompletionAuthorized), true)
  }

  /** The end of a run whose agent is done, after `usage`. */
  function FinishEnding(s: Setting, usage: Usage, subjectDigest: string): Ending {
    var byVerification := VerificationEnding(s, usage, subjectDigest);
    if byVerification.Some? then byVerification.value
    else
      var byRecheck := RecheckEnding(s, Plus(usage, ReplyUsage(s.script.verification)));
      if byRecheck.Some? then byRecheck.value else ClaimEnding(s.script)
  }

  // ---- The whole run ----

  /** The subject that the last step left. */
  function SubjectAfter(initial: Subject, steps: seq<EffectStep>): Subject {
    if steps == [] then initial else steps[|steps| - 1].SubjectAfter()
  }

  lemma ChainLeadsTo(initial: Subject, steps: seq<EffectStep>, final: Subject)
    requires StepsChain(initial, steps, final)
    ensures final == SubjectAfter(initial, steps)
  {
  }

  /** The end that the agent's answer brings, or `None` when one more effect is executed. */
  function AnswerEnding(s: Setting, usage: Usage, subject: Subject, accepted: seq<EffectRequest>, reply: PortReply<AgentStep>): Option<Ending> {
    var byReply := ReplyEnding(reply, AdapterNextEffectFailed, usage, s.run.budget);
    if byReply.Some? then byReply
    else
      match reply.value.value
      case FinishRun => Some(FinishEnding(s, Plus(usage, reply.value.usage), subject.digest))
      case CancelRun(_) => Some(Ending(Interrupted, Fixed(RuntimeInterrupted), true))
      case ProposeEffect(request) => EffectEnding(s, Plus(usage, reply.value.usage), subject, accepted, request)
  }

  /** The end that the agent's next answer brings after these steps. */
  function NextEnding(s: Setting, steps: seq<EffectStep>): Option<Ending> {
    AnswerEnding(s, Total(ChargesOf(s.script, steps)), SubjectAfter(s.run.subject, steps), Requests(steps), s.script.steps(|steps|))
  }

  /** Nothing ended the run between these steps, and each is what the agent proposed. */
  ghost predicate GoesThrough(s: Setting, steps: seq<EffectStep>) {
    forall i | 0 <= i < |steps| ::
      && NextEnding(s, steps[..i]).None?
      && s.script.steps(i).Success? && s.script.steps(i).value.value == ProposeEffect(steps[i].cleared.request)
  }

  lemma GoesNowhere(s: Setting)
    ensures GoesThrough(s, [])
  {
  }

  lemma GoesFurther(s: Setting, steps: seq<EffectStep>, next: seq<EffectStep>)
    requires GoesThrough(s, steps) && |next| == |steps| + 1 && next[..|steps|] == steps
    requires NextEnding(s, steps).None?
    requires s.script.steps(|steps|).Success? && s.script.steps(|steps|).value.value == ProposeEffect(next[|steps|].cleared.request)
    ensures GoesThrough(s, next)
  {
    hide NextEnding;
    forall i | 0 <= i < |next|
      ensures && NextEnding(s, next[..i]).None?
              && s.script.steps(i).Success? && s.script.steps(i).value.value == ProposeEffect(next[i].cleared.request)
    {
      if i < |steps| {
        assert next[..i] == steps[..i] && next[i] == steps[i];
      }
    }
  }

  /** The end of a run that executed these steps. */
  function RunEnding(s: Setting, steps: seq<EffectStep>): Option<Ending> {
    if PlanEnding(s).Some? then PlanEnding(s) else NextEnding(s, steps)
  }

  // ---- What a run is charged ----

  /** A failed port is charged what it still reports. */
  function ErrorCharge(error: PortError): seq<Usage> {
    if error.usage.Some? then [error.usage.value] else []
  }

  function ReplyCharge<T>(reply: PortReply<T>): seq<Usage> {
    match reply
    case Failure(error) => ErrorCharge(error)
    case Success(observed) => [observed.usage]
  }

  /** An attempt is charged one tool call at least; what a distrusted executor reports is cut at the limit. */
  function ExecutionCharge(s: Setting, request: EffectRequest, reply: Result<Observation, PortError>): seq<Usage> {
    match reply
    case Failure(error) => if error.notDispatched then ErrorCharge(error) else [LostResponseUsage(error)]
    case Success(o) =>
      if !o.status.IsAttempt() then [o.usage]
      else
        var counted := CountAttempt(s.support.contracts.hashes, s.support.contracts.hashes.effect(request), o);
        [if DistrustReason(s.config, request, counted).Some? then Cap(counted.usage) else counted.usage]
  }

  function EffectCharge(s: Setting, usage: Usage, subject: Subject, accepted: seq<EffectRequest>, request: EffectRequest): seq<Usage> {
    if ClearanceEnding(s, usage, subject, accepted, request).Some? then []
    else ExecutionCharge(s, request, s.script.executions(|accepted|))
  }

  function ClaimCharge(script: PortScript): seq<Usage> {
    match Claim(script)
    case Failure(error) => ErrorCharge(error)
    case Success(_) => []
  }

  function FinishCharges(s: Setting, usage: Usage, subjectDigest: string): seq<Usage> {
    ReplyCharge(s.script.verification)
    + if VerificationEnding(s, usage, subjectDigest).Some? then []
      else
        ReplyCharge(s.script.completionCheck)
        + if RecheckEnding(s, Plus(usage, ReplyUsage(s.script.verification))).Some? then [] else ClaimCharge(s.script)
  }

  /** What the agent's answer and all that follows from it is charged, up to the next answer or the end. */
  function AnswerCharges(s: Setting, usage: Usage, subject: Subject, accepted: seq<EffectRequest>, reply: PortReply<AgentStep>): seq<Usage> {
    ReplyCharge(reply)
    + if ReplyEnding(reply, AdapterNextEffectFailed, usage, s.run.budget).Some? then []
      else
        match reply.value.value
        case FinishRun => FinishCharges(s, Plus(usage, reply.value.usage), subject.digest)
        case CancelRun(_) => []
        case ProposeEffect(request) => EffectCharge(s, Plus(usage, reply.value.usage), subject, accepted, request)
  }

  function NextCharges(s: Setting, steps: seq<EffectStep>): seq<Usage> {
    AnswerCharges(s, Total(ChargesOf(s.script, steps)), SubjectAfter(s.run.subject, steps), Requests(steps), s.script.steps(|steps|))
  }

  /** Everything a run is charged that executed these steps, reply by reply. */
  function RunCharges(s: Setting, steps: seq<EffectStep>): seq<Usage> {
    if PlanEnding(s).Some? then ReplyCharge(s.script.plan) else ChargesOf(s.script, steps) + NextCharges(s, steps)
  }

  /** What a run is charged that executes these steps and then completes. */
  function CompletedCharges(script: PortScript, steps: seq<EffectStep>): seq<Usage> {
    ChargesOf(script, steps) + [ReplyUsage(script.steps(|steps|)), ReplyUsage(script.verification), ReplyUsage(script.completionCheck)]
  }

  lemma CompletedTotal(script: PortScript, steps: seq<EffectStep>)
    ensures Total(CompletedCharges(script, steps)) ==
            Plus(Plus(Plus(Total(ChargesOf(script, steps)), ReplyUsage(script.steps(|steps|))), ReplyUsage(script.verification)),
                 ReplyUsage(script.completionCheck))
  {
    hide Total, ChargesOf, Plus;
    var charges := ChargesOf(script, steps);
    var asked, verified, rechecked := ReplyUsage(script.steps(|steps|)), ReplyUsage(script.verification), ReplyUsage(script.completionCheck);
    TotalGrows(charges, asked);
    TotalGrows(charges + [asked], verified);
    TotalGrows(charges + [asked] + [verified], rechecked);
    assert CompletedCharges(script, steps) == charges + [asked] + [verified] + [rechecked];
  }

  // ---- What the endings mean ----

  /** A trusted verifier's report passes this subject and can be recorded. */
  predicate Passes(s: Setting, report: Report, subjectDigest: string) {
    && report.verifierId in s.support.trustedVerifiers && report.verdict.Pass? && report.subjectDigest == subjectDigest
    && ReportIsReceiptSafe(s.run, s.config.implementerId, report)
  }

  /** A recordable passing report always passes the verification gate too. */
  lemma PassingReportIsAllowed(s: Setting, report: Report, subjectDigest: string)
    requires ReportIsReceiptSafe(s.run, s.config.implementerId, report)
    ensures VerificationDecision(s.config, subjectDigest, report).outcome.Allow? <==> report.verdict.Pass? && report.subjectDigest == subjectDigest
  {
    hide EvaluatePlan, EvaluatePermission, EvaluateToolTrust, EvaluateVerification, EvaluateRuntime, EvaluateWorkflow;
    var commands := CommandsFor(report.evidence);
    forall c | c in commands ensures IsTextField(c.command) && IsTextField(c.output) && c.passed {
      var i :| 0 <= i < |commands| && commands[i] == c;
      assert report.evidence[i] in report.evidence;
    }
  }

  lemma VerificationPassesExactly(s: Setting, usage: Usage, subjectDigest: string)
    ensures VerificationEnding(s, usage, subjectDigest).None? <==>
            && s.script.verification.Success?
            && ChargeReason(usage, ReplyUsage(s.script.verification), s.run.budget).None?
            && Passes(s, s.script.verification.value.value, subjectDigest)
  {
    hide VerificationDecision, ReportIsReceiptSafe, ChargeReason;
    if s.script.verification.Success? && ReportIsReceiptSafe(s.run, s.config.implementerId, s.script.verification.value.value) {
      PassingReportIsAllowed(s, s.script.verification.value.value, subjectDigest);
    }
  }

  /** Nothing but a won claim completes a run. */
  lemma EffectsNeverComplete(s: Setting, usage: Usage, subject: Subject, accepted: seq<EffectRequest>, request: EffectRequest)
    ensures var e := EffectEnding(s, usage, subject, accepted, request); e.Some? ==> !e.value.status.Completed?
  {
    hide CheckEffectRequest, Evaluate, Repeats, ChargeReason, CountAttempt, DistrustReason, GatesFor;
  }

  lemma PlanNeverCompletes(s: Setting)
    ensures PlanEnding(s).Some? ==> !PlanEnding(s).value.status.Completed?
  {
    hide PlanDecision, IsDigest, ChargeReason;
  }

  lemma FinishesExactly(s: Setting, usage: Usage, subjectDigest: string)
    ensures var total := Plus(Plus(usage, ReplyUsage(s.script.verification)), ReplyUsage(s.script.completionCheck));
            FinishEnding(s, usage, subjectDigest).status.Completed? <==>
            && s.script.verification.Success? && Passes(s, s.script.verification.value.value, subjectDigest)
            && s.script.completionCheck.Success?
            && s.script.agentClaim == Success(None) && s.script.executorClaim == Success(None)
            && UsageIsSafe(total) && WithinBudget(total, s.run.budget)
  {
    hide Passes, VerificationDecision, ReportIsReceiptSafe;
    VerificationPassesExactly(s, usage, subjectDigest);
  }

  /** Exactly which runs end completed: the plan is approved, the agent finishes, a trusted verifier passes the final subject, the
      completion conditions still hold, both claims are won, and the total of everything charged is within the budget. */
  lemma CompletesExactly(s: Setting, steps: seq<EffectStep>)
    ensures var e := RunEnding(s, steps);
            var total := Total(CompletedCharges(s.script, steps));
            e.Some? && e.value.status.Completed? <==>
            && PlanEnding(s).None?
            && s.script.steps(|steps|).Success? && s.script.steps(|steps|).value.value.FinishRun?
            && s.script.verification.Success? && Passes(s, s.script.verification.value.value, SubjectAfter(s.run.subject, steps).digest)
            && s.script.completionCheck.Success?
            && s.script.agentClaim == Success(None) && s.script.executorClaim == Success(None)
            && UsageIsSafe(total) && WithinBudget(total, s.run.budget)
  {
    hide Total, ChargesOf, FinishEnding, EffectEnding, Passes, PlanEnding, SubjectAfter, CompletedCharges;
    PlanNeverCompletes(s);
    var reply := s.script.steps(|steps|);
    var usage := Total(ChargesOf(s.script, steps));
    var subject := SubjectAfter(s.run.subject, steps);
    CompletedTotal(s.script, steps);
    if reply.Success? {
      FinishesExactly(s, Plus(usage, reply.value.usage), subject.digest);
      if reply.value.value.ProposeEffect? {
        EffectsNeverComplete(s, Plus(usage, reply.value.usage), subject, Requests(steps), reply.value.value.request);
      }
    }
  }

  /** The run goes on after a proposal exactly when it is admitted, every gate allows it, and the configured executor reports
      from the requested sandbox that it was executed, within the budget. */
  lemma ContinuesExactly(s: Setting, usage: Usage, subject: Subject, accepted: seq<EffectRequest>, request: EffectRequest)
    ensures var hashes := s.support.contracts.hashes;
            var reply := s.script.executions(|accepted|);
            EffectEnding(s, usage, subject, accepted, request).None? <==>
            && AdmissionEnding(s, usage, subject, accepted, request).None?
            && GatesAllow(GatesFor(s.support, s.config, usage.cost, request, hashes.effect(request)))
            && reply.Success? && reply.value.status.Executed?
            && reply.value.executor == Some(s.config.executor) && reply.value.sandboxProfile == Some(request.sandboxProfile)
            && ChargeReason(usage, CountAttempt(hashes, hashes.effect(request), reply.value).usage, s.run.budget).None?
  {
    hide AdmissionEnding, GatesFor, ChargeReason;
  }

  /** An executor that stays within the estimate never ends a run by what it used. */
  lemma EstimateNeverEnds(s: Setting, usage: Usage, subject: Subject, accepted: seq<EffectRequest>, request: EffectRequest, observation: Observation)
    requires ConfigIsValid(s.config, s.run)
    requires ClearanceEnding(s, usage, subject, accepted, request).None?
    requires observation.status.Executed? && AtMost(observation.usage, s.support.estimate)
    ensures TrustedEnding(usage, observation, s.run.budget).None?
  {
    hide CheckEffectRequest, Repeats, BudgetAdmission, Evaluate, ConfigIsValid, IsAffordable, UsageIsSafe, WithinBudget;
    AllowedIsAffordable(s.support, s.config, s.run, usage, request, s.support.contracts.hashes.effect(request));
    EstimatedUsageFits(s.support, s.config, s.run, usage, observation.usage);
  }
}

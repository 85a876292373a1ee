/** A completed run that the second checker refuses: the executor reports a request digest as the new subject's digest. */
module CollidingRun {
  import opened Text
  import opened Contracts
  import opened UsageArithmetic
  import opened RunCoordinator
  import opened RuntimeModel
  import opened ReceiptChecker
  import opened ResultChecker
  import opened EffectResults
  import opened LedgerFacts
  import opened AgentLedger
  import opened EffectSteps
  import opened RunEndings
  import opened Attestation
  import opened RunAttestation
  import RunEngine

  // ---- The executor's report ----

  /** Evidence of every kind an executed mutation needs. */
  function EvidenceFor(request: EffectRequest, digest: string): seq<EffectEvidence> {
    var d := Some(digest);
    var attempt := WithEvidence(WithEvidence(WithEvidence([], ExecutorEvidence, d), SandboxEvidence, d), UsageEvidence, d);
    var mutation := WithEvidence(WithEvidence(WithEvidence(attempt, SubjectObservation, d), MutationEvidence, d), ArtifactChange, d);
    WithEvidence(mutation, ExitEvidence, if request.family.Process? then d else None)
  }

  const ONE_CALL := Usage(0, 0, 0, 1)

  /** An executed mutation whose new subject has the digest of the effect request itself. */
  function CollidingObservation(config: RuntimeConfig, request: EffectRequest, effectDigest: string): Observation {
    Observation(
      Executed, Some(request.subject.(digest := effectDigest)), if request.family.Process? then Some(ExitCode(0)) else None,
      ONE_CALL, Some(config.executor), Some(request.sandboxProfile), None, EvidenceFor(request, effectDigest))
  }

  lemma EvidenceIsComplete(request: EffectRequest, digest: string)
    requires IsDigest(digest)
    ensures var evidence := EvidenceFor(request, digest);
            && IsKept(evidence)
            && Kinds(evidence) == {ExecutorEvidence, SandboxEvidence, UsageEvidence, SubjectObservation, MutationEvidence, ArtifactChange}
                                  + if request.family.Process? then {ExitEvidence} else {}
  {
    hide IsDigest, WithEvidence, IsKept, Kinds;
    NothingIsKept();
  }

  /** The report fits, so its result is retained. */
  lemma CollidingObservationFits(config: RuntimeConfig, request: EffectRequest, effectDigest: string)
    requires IsDigest(effectDigest) && NonBlank(request.subject.locator) && request.effectClass.MutationEffect?
    ensures ObservationFits(request, CollidingObservation(config, request, effectDigest))
  {
    hide IsDigest, EvidenceFor, IsKept, Kinds, NonBlank;
    EvidenceIsComplete(request, effectDigest);
  }

  /** Any cleared mutation can be executed so that it collides with the completion of the subject it leaves. */
  lemma AnyMutationCanCollide(support: ContractSupport, config: RuntimeConfig, run: AgentRunRequest, c: Clearance)
    requires support.hashes.WellFormed() && IdentityIsValid(config.executor)
    requires IsCleared(support, run, c) && c.IsMutation() && c.request.subject.digest != c.effectDigest
    ensures var body := AttemptBody(config, c.request, c.request.subject, c.Cited(), CollidingObservation(config, c.request, c.effectDigest));
            var step := EffectStep(c, EffectResult(support.hashes.result(body), body));
            && StepSucceeded(support, run, step)
            && CollidesWithCompletion(step, step.SubjectAfter().digest)
  {
    hide CheckEffectRequest, CheckResultBody, Clearance.Cited, GatesAllow, IdentityIsValid, CitesPermission, ObservationFits, EvidenceFor, IsDigest, NonBlank;
    ClearanceCites(support, run, c);
    CollidingObservationFits(config, c.request, c.effectDigest);
    AttemptSealsExactly(support, config, run, c.request, c.Cited(), CollidingObservation(config, c.request, c.effectDigest));
  }

  /** Every completed run is refused whose last effect is a mutation that left its own request digest as the subject's. */
  lemma CollidingRunIsRefused(engine: RunEngine.AgentRunEngine, run: AgentRunRequest, x: RunEngine.Execution, steps: seq<EffectStep>, final: Subject)
    requires engine.CompletedRun(run, x, steps, final) && VerifyReceipt(engine.support.contracts, run, x.receipt)
    requires x.receipt.body.terminalStatus == Completed && Interruptions(x.receipt.body.events) == 0
    requires steps != []
    requires var last := steps[|steps| - 1];
             last.Mutates() && last.result.body.postSubject.value.digest == last.cleared.effectDigest != last.cleared.request.subject.digest
    ensures CheckStatement(engine.support.contracts, Statement(run, x.receipt, Records(steps), final)).Some?
  {
    hide VerifyReceipt, CheckStatement, StepKeepsScope, KeepsScope, Interruptions, StepsUsage, StepSucceeded, AreDistinctEffects, Mentions, Blocks, IsCompletionOf;
    hide StepsChain;
    LedgerResults(engine.support.contracts, run, x.receipt.body.events, x.results, steps, final);
    VerifiedUsageIsSafe(engine.support.contracts, run, x.receipt);
    CompletedStatementIsAccepted(engine.support.contracts, run, x.receipt, steps, final);
    ChainLeadsTo(run.subject, steps, final);
    assert CollidesWithCompletion(steps[|steps| - 1], final.digest);
  }

  // ---- A whole run ----

  /** A passing report on the subject, with the evidence that the run requires. */
  function PassingReport(run: AgentRunRequest, verifier: string, digest: string): Report {
    Report(digest, verifier, Pass, seq(|run.requiredEvidence|, i requires 0 <= i < |run.requiredEvidence| => Evidence(run.requiredEvidence[i], digest, None)))
  }

  /** The ports of a run that proposes one mutation, executes it with the colliding report, and finishes. */
  function CollidingScript(support: RuntimeSupport, config: RuntimeConfig, run: AgentRunRequest, request: EffectRequest, verifier: string): PortScript {
    var digest := support.contracts.hashes.effect(request);
    PortScript(
      Success(Observed(digest, ZERO_USAGE)),
      (n: nat) => Success(Observed(if n == 0 then ProposeEffect(request) else FinishRun, ZERO_USAGE)),
      (n: nat) => Success(CollidingObservation(config, request, digest)),
      Success(Observed(PassingReport(run, verifier, digest), ZERO_USAGE)),
      Success(Observed((), ZERO_USAGE)),
      Success(None), Success(None), None, None)
  }

  function SettingFor(support: RuntimeSupport, config: RuntimeConfig, run: AgentRunRequest, request: EffectRequest, verifier: string): Setting {
    Setting(support, config, CollidingScript(support, config, run, request, verifier), run)
  }

  /** A valid setting under which the mutation would be the first effect and every gate allows it. */
  ghost predicate IsPrepared(support: RuntimeSupport, config: RuntimeConfig, run: AgentRunRequest, request: EffectRequest, verifier: string) {
    && support.contracts.hashes.WellFormed() && ConfigIsValid(config, run) && SupportIsValid(support)
    && CheckRequest(run, support.contracts.policies).None? && PlanDecision(run).outcome.Allow?
    && ClearanceEnding(SettingFor(support, config, run, request, verifier), ZERO_USAGE, run.subject, [], request).None?
    && request.effectClass.MutationEffect? && request.subject.digest != support.contracts.hashes.effect(request)
    && verifier in support.trustedVerifiers && verifier != config.implementerId
    && run.budget.maxToolCalls >= 1 && 8 * config.maxEffects + 17 <= MAX_SAFE_INTEGER
  }

  /** What the rest of the proof needs of a prepared setting. */
  lemma PreparedFacts(support: RuntimeSupport, config: RuntimeConfig, run: AgentRunRequest, request: EffectRequest, verifier: string)
    requires IsPrepared(support, config, run, request, verifier)
    ensures IsDigest(support.contracts.hashes.effect(request)) && NonBlank(request.subject.locator) && request.subject == run.subject
    ensures BudgetIsSafe(run.budget) && NonBlank(verifier) && NonBlank(config.implementerId) && run.requiredEvidence != []
    ensures verifier in support.trustedVerifiers && verifier != config.implementerId && run.budget.maxToolCalls >= 1
    ensures ClearanceEnding(SettingFor(support, config, run, request, verifier), ZERO_USAGE, run.subject, [], request).None?
  {
    hide CheckRequest, CheckEffectRequest, Evaluate, BudgetAdmission, GatesFor, GateEnding;
    var admitted := ValidateRequest(support.contracts, run);
    assert admitted.Success?;
  }

  lemma ReportEvidence(run: AgentRunRequest, verifier: string, digest: string)
    requires IsDigest(digest) && run.requiredEvidence != []
    ensures var report := PassingReport(run, verifier, digest);
            EvidenceSetIsValid(report.evidence) && forall t | t in run.requiredEvidence :: HasEvidence(report.evidence, t)
  {
    hide IsDigest;
    var report := PassingReport(run, verifier, digest);
    forall t | t in run.requiredEvidence ensures HasEvidence(report.evidence, t) {
      var i :| 0 <= i < |run.requiredEvidence| && run.requiredEvidence[i] == t;
      assert report.evidence[i] in report.evidence;
    }
  }

  lemma ReportPasses(support: RuntimeSupport, config: RuntimeConfig, run: AgentRunRequest, request: EffectRequest, verifier: string)
    requires IsPrepared(support, config, run, request, verifier)
    ensures var digest := support.contracts.hashes.effect(request);
            Passes(SettingFor(support, config, run, request, verifier), PassingReport(run, verifier, digest), digest)
  {
    hide IsPrepared, IsDigest, NonBlank, EvidenceSetIsValid, HasEvidence, CollidingScript;
    PreparedFacts(support, config, run, request, verifier);
    ReportEvidence(run, verifier, support.contracts.hashes.effect(request));
  }

  /** What the ports answer. */
  lemma ScriptAnswers(support: RuntimeSupport, config: RuntimeConfig, run: AgentRunRequest, request: EffectRequest, verifier: string)
    ensures var script, digest := CollidingScript(support, config, run, request, verifier), support.contracts.hashes.effect(request);
            && script.plan == Success(Observed(digest, ZERO_USAGE))
            && script.steps(0) == Success(Observed(ProposeEffect(request), ZERO_USAGE))
            && (forall n: nat | n > 0 :: script.steps(n) == Success(Observed(FinishRun, ZERO_USAGE)))
            && (forall n: nat :: script.executions(n) == Success(CollidingObservation(config, request, digest)))
            && script.verification == Success(Observed(PassingReport(run, verifier, digest), ZERO_USAGE))
            && script.completionCheck == Success(Observed((), ZERO_USAGE))
            && script.agentClaim == Success(None) && script.executorClaim == Success(None)
            && script.agentCancellation == None && script.executorCancellation == None
  {
    hide CollidingObservation, PassingReport;
  }

  lemma PlanPasses(support: RuntimeSupport, config: RuntimeConfig, run: AgentRunRequest, request: EffectRequest, verifier: string)
    requires IsPrepared(support, config, run, request, verifier)
    ensures PlanEnding(SettingFor(support, config, run, request, verifier)).None?
  {
    hide CollidingScript, ClearanceEnding, PlanDecision, CheckRequest, IsDigest, ConfigIsValid, SupportIsValid;
    PreparedFacts(support, config, run, request, verifier);
    ScriptAnswers(support, config, run, request, verifier);
  }

  lemma CollidingFields(config: RuntimeConfig, request: EffectRequest, digest: string)
    ensures var o := CollidingObservation(config, request, digest);
            && o.status.Executed? && o.usage == ONE_CALL && o.executor == Some(config.executor) && o.sandboxProfile == Some(request.sandboxProfile)
            && o.postSubject == Some(request.subject.(digest := digest))
  {
    hide EvidenceFor;
  }

  lemma OneCallFits(before: Usage, charge: Usage, budget: ResourceBudget)
    requires before == Usage(0, 0, 0, 0) && charge == Usage(0, 0, 0, 1) && budget.maxToolCalls >= 1
    ensures ChargeReason(before, charge, budget).None?
  {
  }

  lemma TrustedExecutionContinues(s: Setting, usage: Usage, request: EffectRequest, o: Observation)
    requires o.status.Executed? && o.usage.toolCalls > 0
    requires o.executor == Some(s.config.executor) && o.sandboxProfile == Some(request.sandboxProfile)
    requires ChargeReason(usage, o.usage, s.run.budget).None?
    ensures ExecutionEnding(s, usage, request, Success(o)).None?
  {
    hide CountAttempt, ChargeReason;
  }

  /** The report is trusted, and its one tool call is affordable. */
  lemma ReportContinues(s: Setting, request: EffectRequest)
    requires s.run.budget.maxToolCalls >= 1
    ensures var digest := s.support.contracts.hashes.effect(request);
            ExecutionEnding(s, ZERO_USAGE, request, Success(CollidingObservation(s.config, request, digest))).None?
  {
    hide CollidingObservation, ExecutionEnding, ChargeReason;
    var digest := s.support.contracts.hashes.effect(request);
    CollidingFields(s.config, request, digest);
    OneCallFits(ZERO_USAGE, ONE_CALL, s.run.budget);
    TrustedExecutionContinues(s, ZERO_USAGE, request, CollidingObservation(s.config, request, digest));
  }

  lemma MutationExecutes(support: RuntimeSupport, config: RuntimeConfig, run: AgentRunRequest, request: EffectRequest, verifier: string)
    requires IsPrepared(support, config, run, request, verifier)
    ensures EffectEnding(SettingFor(support, config, run, request, verifier), ZERO_USAGE, run.subject, [], request).None?
  {
    hide IsPrepared, CollidingScript, ClearanceEnding, ExecutionEnding, CollidingObservation;
    PreparedFacts(support, config, run, request, verifier);
    ScriptAnswers(support, config, run, request, verifier);
    ReportContinues(SettingFor(support, config, run, request, verifier), request);
  }

  lemma FirstAnswer(s: Setting, request: EffectRequest)
    requires s.script.steps(0) == Success(Observed(ProposeEffect(request), ZERO_USAGE))
    requires EffectEnding(s, ZERO_USAGE, s.run.subject, [], request).None?
    ensures AnswerEnding(s, ZERO_USAGE, s.run.subject, [], s.script.steps(0)).None?
  {
    hide EffectEnding;
  }

  /** The first proposal is executed. */
  lemma FirstEffectContinues(support: RuntimeSupport, config: RuntimeConfig, run: AgentRunRequest, request: EffectRequest, verifier: string)
    requires IsPrepared(support, config, run, request, verifier)
    ensures NextEnding(SettingFor(support, config, run, request, verifier), []).None?
  {
    hide IsPrepared, CollidingScript, EffectEnding, Requests, AnswerEnding, Total;
    var s := SettingFor(support, config, run, request, verifier);
    ScriptAnswers(support, config, run, request, verifier);
    MutationExecutes(support, config, run, request, verifier);
    FirstAnswer(s, request);
    NothingIsCharged();
    TotalGrows([], ZERO_USAGE);
    assert ChargesOf(s.script, []) == [ZERO_USAGE];
    assert Requests([]) == [];
  }

  /** With that effect executed, finishing completes the run. */
  lemma OneEffectCompletes(support: RuntimeSupport, config: RuntimeConfig, run: AgentRunRequest, request: EffectRequest, verifier: string, step: EffectStep)
    requires IsPrepared(support, config, run, request, verifier)
    requires step.SubjectAfter().digest == support.contracts.hashes.effect(request) && step.result.body.usage == ONE_CALL
    ensures var e := RunEnding(SettingFor(support, config, run, request, verifier), [step]); e.Some? && e.value.status.Completed?
  {
    hide IsPrepared, Passes, PassingReport, PlanEnding, NextEnding, CollidingScript, EffectStep.SubjectAfter, CompletedCharges, Total, RunEnding;
    PreparedFacts(support, config, run, request, verifier);
    ScriptAnswers(support, config, run, request, verifier);
    PlanPasses(support, config, run, request, verifier);
    ReportPasses(support, config, run, request, verifier);
    OneCallIsCharged(SettingFor(support, config, run, request, verifier).script, step);
    CompletesExactly(SettingFor(support, config, run, request, verifier), [step]);
  }

  lemma OneCallIsCharged(script: PortScript, step: EffectStep)
    requires ReplyUsage(script.plan) == ReplyUsage(script.steps(0)) == ReplyUsage(script.steps(1)) == ZERO_USAGE
    requires ReplyUsage(script.verification) == ReplyUsage(script.completionCheck) == ZERO_USAGE && step.result.body.usage == ONE_CALL
    ensures Total(CompletedCharges(script, [step])) == ONE_CALL
  {
    hide Total, CompletedCharges, ChargesOf, Plus;
    CompletedTotal(script, [step]);
    OneStepCharges(script, step);
    TotalOfOne();
    ZeroAdds(ONE_CALL);
  }

  lemma OneStepCharges(script: PortScript, step: EffectStep)
    requires ReplyUsage(script.plan) == ReplyUsage(script.steps(0)) == ZERO_USAGE && step.result.body.usage == ONE_CALL
    ensures ChargesOf(script, [step]) == [ZERO_USAGE] + [ZERO_USAGE] + [ONE_CALL]
  {
    assert [step][..0] == [];
  }

  lemma NothingIsCharged()
    ensures Total([]) == ZERO_USAGE && [] + [ZERO_USAGE] == [ZERO_USAGE]
  {
  }

  lemma TotalOfOne()
    ensures Total([ZERO_USAGE] + [ZERO_USAGE] + [ONE_CALL]) == ONE_CALL
  {
    hide Total, Plus;
    NothingIsCharged();
    TotalGrows([], ZERO_USAGE);
    TotalGrows([ZERO_USAGE], ZERO_USAGE);
    TotalGrows([ZERO_USAGE] + [ZERO_USAGE], ONE_CALL);
    ZeroAdds(ZERO_USAGE);
    ZeroAdds(ONE_CALL);
  }

  lemma ZeroAdds(u: Usage)
    ensures Plus(ZERO_USAGE, u) == u && Plus(u, ZERO_USAGE) == u
  {
  }

  /** What `steps` can be when the engine runs the script: at most the one mutation, executed as reported. */
  lemma StepsAreTheMutation(
    engine: RunEngine.AgentRunEngine, run: AgentRunRequest, request: EffectRequest, verifier: string, steps: seq<EffectStep>)
    requires IsPrepared(engine.support, engine.config, run, request, verifier)
    requires engine.script == CollidingScript(engine.support, engine.config, run, request, verifier)
    requires GoesThrough(engine.SettingOf(run), steps) && engine.TookReplies(steps)
    ensures |steps| <= 1
    ensures |steps| == 1 ==>
              && steps[0].cleared.request == request && steps[0].result.body.usage == ONE_CALL
              && steps[0].result.body.postSubject == Some(request.subject.(digest := engine.support.contracts.hashes.effect(request)))
  {
    hide IsPrepared, CollidingScript, NextEnding, CollidingObservation;
    ScriptAnswers(engine.support, engine.config, run, request, verifier);
    if |steps| > 1 {
      SecondStepProposes(engine.SettingOf(run), steps);
    } else if |steps| == 1 {
      CollidingFields(engine.config, request, engine.support.contracts.hashes.effect(request));
      StepObserves(engine, steps[0]);
    }
  }

  lemma SecondStepProposes(s: Setting, steps: seq<EffectStep>)
    requires GoesThrough(s, steps) && |steps| > 1
    ensures s.script.steps(1).Success? && s.script.steps(1).value.value.ProposeEffect?
  {
    hide NextEnding;
  }

  lemma StepObserves(engine: RunEngine.AgentRunEngine, step: EffectStep)
    requires engine.script.executions(0).Success? && step == engine.StepOf(step.cleared, engine.script.executions(0))
    requires engine.script.executions(0).value.usage.toolCalls > 0
    ensures step.result.body.usage == engine.script.executions(0).value.usage
    ensures step.result.body.postSubject == engine.script.executions(0).value.postSubject
  {
    hide CountAttempt, Clearance.Cited;
  }

  /** Every call the engine can make under the script has a reply that fits. */
  lemma RepliesFit(engine: RunEngine.AgentRunEngine, run: AgentRunRequest, request: EffectRequest, verifier: string)
    requires IsPrepared(engine.support, engine.config, run, request, verifier)
    requires engine.script == CollidingScript(engine.support, engine.config, run, request, verifier)
    requires engine.CallsAreProposed()
    ensures engine.AllRepliesFit()
  {
    hide IsPrepared, CollidingScript, CollidingObservation, ReplyFits;
    PreparedFacts(engine.support, engine.config, run, request, verifier);
    MutationIsPrepared(engine.support, engine.config, run, request, verifier);
    ScriptAnswers(engine.support, engine.config, run, request, verifier);
    ReportFits(engine.config, engine.support.contracts.hashes, request);
    CallsAreTheMutation(engine, request);
  }

  lemma CallsAreTheMutation(engine: RunEngine.AgentRunEngine, request: EffectRequest)
    requires engine.CallsAreProposed()
    requires engine.script.steps(0) == Success(Observed(ProposeEffect(request), ZERO_USAGE))
    requires engine.script.steps(1) == Success(Observed(FinishRun, ZERO_USAGE))
    ensures |engine.dispatched| <= 1 && (|engine.dispatched| == 1 ==> engine.dispatched[0].cleared.request == request)
  {
    if |engine.dispatched| > 1 {
      SecondCallIsProposed(engine);
    }
  }

  lemma SecondCallIsProposed(engine: RunEngine.AgentRunEngine)
    requires engine.CallsAreProposed() && |engine.dispatched| > 1
    ensures engine.script.steps(1).Success? && engine.script.steps(1).value.value.ProposeEffect?
  {
  }

  lemma MutationIsPrepared(support: RuntimeSupport, config: RuntimeConfig, run: AgentRunRequest, request: EffectRequest, verifier: string)
    requires IsPrepared(support, config, run, request, verifier)
    ensures request.effectClass.MutationEffect? && request.subject.digest != support.contracts.hashes.effect(request)
    ensures support.contracts.hashes.WellFormed() && ConfigIsValid(config, run) && SupportIsValid(support)
    ensures CheckRequest(run, support.contracts.policies).None? && 8 * config.maxEffects + 17 <= MAX_SAFE_INTEGER
  {
  }

  lemma ReportFits(config: RuntimeConfig, hashes: Hashes, request: EffectRequest)
    requires IsDigest(hashes.effect(request)) && NonBlank(request.subject.locator) && request.effectClass.MutationEffect?
    ensures ReplyFits(config, hashes, request, Success(CollidingObservation(config, request, hashes.effect(request))))
  {
    hide CollidingObservation, ObservationFits, CountAttempt, IsDigest, NonBlank;
    CollidingFields(config, request, hashes.effect(request));
    CollidingObservationFits(config, request, hashes.effect(request));
  }

  /** The engine's contract leaves only one ending. */
  lemma RunCompletes(
    engine: RunEngine.AgentRunEngine, run: AgentRunRequest, request: EffectRequest, verifier: string, result: RunEngine.RunResult, steps: seq<EffectStep>)
    requires IsPrepared(engine.support, engine.config, run, request, verifier)
    requires engine.script == CollidingScript(engine.support, engine.config, run, request, verifier)
    requires GoesThrough(engine.SettingOf(run), steps) && engine.TookReplies(steps)
    requires result.Success? && engine.Meets(Some(result), RunEnding(engine.SettingOf(run), steps))
    ensures |steps| == 1 && steps[0].cleared.request == request && result.value.receipt.body.terminalStatus == Completed
    ensures steps[0].result.body.postSubject == Some(request.subject.(digest := engine.support.contracts.hashes.effect(request)))
  {
    hide IsPrepared, CollidingScript, GoesThrough, RunEnding, RunEngine.AgentRunEngine.TookReplies, RunEngine.AgentRunEngine.Meets, EffectStep.SubjectAfter;
    StepsAreTheMutation(engine, run, request, verifier, steps);
    RunHasNotEnded(engine, run, request, verifier);
    SomethingEnds(engine, result, RunEnding(engine.SettingOf(run), steps));
    assert steps == if |steps| == 0 then [] else [steps[0]];
    MutationMovesSubject(engine.support, engine.config, run, request, verifier, steps[0]);
    OneEffectCompletes(engine.support, engine.config, run, request, verifier, steps[0]);
    NothingCancels(engine, run, request, verifier);
  }

  lemma RunHasNotEnded(engine: RunEngine.AgentRunEngine, run: AgentRunRequest, request: EffectRequest, verifier: string)
    requires IsPrepared(engine.support, engine.config, run, request, verifier)
    requires engine.script == CollidingScript(engine.support, engine.config, run, request, verifier)
    ensures RunEnding(engine.SettingOf(run), []).None?
  {
    hide IsPrepared, CollidingScript, NextEnding, PlanEnding;
    FirstEffectContinues(engine.support, engine.config, run, request, verifier);
    PlanPasses(engine.support, engine.config, run, request, verifier);
    NothingEndsYet(engine.SettingOf(run));
  }

  /** A receipt means that something ended the run. */
  lemma SomethingEnds(engine: RunEngine.AgentRunEngine, result: RunEngine.RunResult, ending: Option<Ending>)
    requires result.Success? && engine.Meets(Some(result), ending)
    ensures ending.Some?
    ensures engine.CancellationSeen().None? ==> result.value.receipt.body.terminalStatus == ending.value.status
  {
  }

  lemma NothingCancels(engine: RunEngine.AgentRunEngine, run: AgentRunRequest, request: EffectRequest, verifier: string)
    requires engine.script == CollidingScript(engine.support, engine.config, run, request, verifier)
    ensures engine.CancellationSeen().None?
  {
    hide CollidingScript;
    ScriptAnswers(engine.support, engine.config, run, request, verifier);
  }

  lemma MutationMovesSubject(support: RuntimeSupport, config: RuntimeConfig, run: AgentRunRequest, request: EffectRequest, verifier: string, step: EffectStep)
    requires IsPrepared(support, config, run, request, verifier)
    requires step.cleared.request == request
    requires step.result.body.postSubject == Some(request.subject.(digest := support.contracts.hashes.effect(request)))
    ensures step.SubjectAfter().digest == support.contracts.hashes.effect(request)
  {
    hide IsPrepared;
    MutationIsPrepared(support, config, run, request, verifier);
  }

  lemma NothingEndsYet(s: Setting)
    requires PlanEnding(s).None? && NextEnding(s, []).None?
    ensures RunEnding(s, []).None?
  {
  }

  /** Under any prepared setting the engine completes the script's run, with a receipt that the first checker accepts, and the
      second checker refuses the statement about it. */
  method CompleteCollidingRun(support: RuntimeSupport, config: RuntimeConfig, run: AgentRunRequest, request: EffectRequest, verifier: string)
    returns (result: RunEngine.RunResult, ghost steps: seq<EffectStep>, ghost final: Subject)
    requires IsPrepared(support, config, run, request, verifier)
    ensures result.Success? && result.value.receipt.body.terminalStatus == Completed
    ensures VerifyReceipt(support.contracts, run, result.value.receipt)
    ensures |steps| == 1 && steps[0].cleared.request == request && final.digest == result.value.receipt.body.resultingSubject
    ensures CheckStatement(support.contracts, Statement(run, result.value.receipt, Records(steps), final)).Some?
  {
    hide IsPrepared, CollidingScript, ConfigIsValid, SupportIsValid, CheckRequest, VerifyReceipt, CheckStatement, RunEnding, GoesThrough;
    hide CheckReceiptBody, DispatchesAreSound, UsageNeverRepeats, Total, ObservationFits;
    MutationIsPrepared(support, config, run, request, verifier);
    var engine := new RunEngine.AgentRunEngine(support, config, CollidingScript(support, config, run, request, verifier));
    ghost var l;
    result, l, steps := engine.Run(run);
    RepliesFit(engine, run, request, verifier);
    RunCompletes(engine, run, request, verifier, result, steps);
    final := l.currentSubject;
    CollidingRunIsRefused(engine, run, result.value, steps, final);
  }

  // ---- A prepared setting ----

  const TEXT := "text"

  lemma TextIsNotBlank()
    ensures NonBlank(TEXT)
  {
  }

  function ExampleDigest(c: char): string {
    DIGEST_PREFIX + seq(64, _ => c)
  }

  lemma ExampleDigestIsOne(c: char)
    requires IsLowerHex(c)
    ensures IsDigest(ExampleDigest(c))
  {
  }

  function ExampleIdentity(c: char): Identity {
    Identity(TEXT, TEXT, ExampleDigest(c))
  }

  lemma ExampleIdentityIsValid(c: char)
    requires IsLowerHex(c)
    ensures IdentityIsValid(ExampleIdentity(c)) && IsDigest(ExampleDigest(c))
  {
    hide IsDigest;
    TextIsNotBlank();
    ExampleDigestIsOne(c);
  }

  /** Every effect request hashes to one digest, and everything else to another. */
  function ExampleHashes(): Hashes {
    Hashes(
      _ => ExampleDigest('0'), _ => ExampleDigest('0'), _ => ExampleDigest('e'), _ => ExampleDigest('0'), _ => ExampleDigest('0'), _ => ExampleDigest('0'))
  }

  function ExampleSubject(): Subject {
    Subject(Repository, TEXT, ExampleDigest('0'))
  }

  function ExampleRun(): AgentRunRequest {
    AgentRunRequest(
      AGENT_RUN_REQUEST_SCHEMA, TEXT, TEXT, ExampleSubject(), ExampleIdentity('1'), TEXT, [], [ExampleIdentity('2')],
      ResourceBudget(10, 10, 10, 10),
      [Approval(TEXT, TEXT, TEXT, ExampleDigest('0'), Evidence(ApprovalEvidence, ExampleDigest('3'), None))],
      [CommandOutput])
  }

  function ExampleSupport(): RuntimeSupport {
    RuntimeSupport(
      ContractSupport({ExampleIdentity('2')}, ExampleHashes()), [ExampleIdentity('1')],
      PermissionPolicy(Some(PolicyAllow), [], [], []), ONE_CALL, [], ["verifier"], None)
  }

  function ExampleConfig(): RuntimeConfig {
    RuntimeConfig("implementer", ExampleIdentity('4'), 1, BudgetThresholds(5, 5, 10))
  }

  function ExampleMutation(): EffectRequest {
    EffectRequest(
      PROTECTED_EFFECT_REQUEST_SCHEMA, TEXT, 1, TEXT, ExampleDigest('0'), ExampleSubject(), Process, "process.a", ExampleIdentity('1'),
      None, ExampleDigest('5'), [], [ProcessScope(TEXT, TEXT)], [ExampleIdentity('2')], [], ExampleDigest('0'),
      ExampleIdentity('6'), TEXT, MutationEffect)
  }

  lemma ExampleHashesAreWellFormed()
    ensures ExampleHashes().WellFormed()
  {
    hide IsDigest, ExampleDigest;
    ExampleDigestIsOne('0');
    ExampleDigestIsOne('e');
  }

  lemma ExampleRunIsValid()
    ensures RequestIsValid(ExampleSupport().contracts.policies, ExampleRun())
  {
    hide IsDigest, ExampleDigest, NonBlank;
    TextIsNotBlank();
    ExampleIdentityIsValid('1');
    ExampleIdentityIsValid('2');
    ExampleDigestIsOne('0');
    ExampleDigestIsOne('3');
  }

  lemma {:induction false} SplitFirst(first: string, rest: string)
    requires '.' !in first
    ensures Split(first + "." + rest, '.') == [first] + Split(rest, '.')
  {
    var whole := first + "." + rest;
    if first == "" {
      assert whole[1..] == rest;
    } else {
      SplitFirst(first[1..], rest);
      assert whole[1..] == first[1..] + "." + rest && [first[0]] + first[1..] == first;
    }
  }

  lemma {:induction false} SplitNothing(s: string)
    requires '.' !in s
    ensures Split(s, '.') == [s]
  {
    if s != "" {
      SplitNothing(s[1..]);
      assert [s[0]] + s[1..] == s;
    }
  }

  lemma ExampleOperation()
    ensures OperationIsNormalized(Process, "process.a")
  {
    hide Split;
    SplitFirst("process", "a");
    SplitNothing("a");
    assert "process" + "." + "a" == "process.a";
    assert Split("process.a", '.') == ["process", "a"];
  }

  lemma OperationIsNotBlank()
    ensures NonBlank("process.a")
  {
  }

  lemma ExampleMutationIsValid()
    ensures EffectIsValid(ExampleSupport().contracts, ExampleRun(), ExampleMutation())
  {
    hide IsDigest, ExampleDigest, RequestIsValid, OperationIsNormalized, NonBlank;
    TextIsNotBlank();
    OperationIsNotBlank();
    ExampleRunIsValid();
    ExampleOperation();
    ExampleIdentityIsValid('1');
    ExampleIdentityIsValid('6');
    ExampleDigestIsOne('0');
    ExampleDigestIsOne('5');
  }

  lemma ExampleDigestsDiffer()
    ensures ExampleDigest('0') != ExampleDigest('e')
  {
    assert ExampleDigest('0')[7] == '0' && ExampleDigest('e')[7] == 'e';
  }

  lemma ExampleGatesAllow()
    ensures GatesAllow(GatesFor(ExampleSupport(), ExampleConfig(), 0, ExampleMutation(), ExampleDigest('e')))
    ensures PlanDecision(ExampleRun()).outcome.Allow?
  {
    hide IsDigest, ExampleDigest, EvaluatePlan, EvaluatePermission, EvaluateToolTrust, EvaluateRuntime, EvaluateWorkflow, EvaluateVerification;
    ExampleDigestIsOne('0');
    ExampleDigestIsOne('1');
    ExampleDigestIsOne('e');
  }

  lemma CallIsAffordable(current: Usage, estimate: Usage, budget: ResourceBudget)
    requires current == Usage(0, 0, 0, 0) && estimate == Usage(0, 0, 0, 1) && budget.maxToolCalls >= 1
    ensures BudgetAdmission(current, budget, estimate).None? && UsageIsSafe(estimate)
  {
  }

  lemma ExampleIsConfigured()
    ensures ConfigIsValid(ExampleConfig(), ExampleRun()) && SupportIsValid(ExampleSupport())
    ensures BudgetAdmission(ZERO_USAGE, ExampleRun().budget, ExampleSupport().estimate).None?
  {
    hide IsDigest, ExampleDigest, BudgetAdmission, UsageIsSafe;
    ExampleIdentityIsValid('4');
    CallIsAffordable(ZERO_USAGE, ONE_CALL, ExampleRun().budget);
  }

  lemma AdmittedExactly(support: ContractSupport, run: AgentRunRequest, e: EffectRequest)
    ensures CheckEffectRequest(support, run, e).None? <==> EffectIsValid(support, run, e)
    ensures CheckRequest(run, support.policies).None? <==> RequestIsValid(support.policies, run)
  {
    hide CheckEffectRequest, CheckRequest, EffectIsValid, RequestIsValid;
    var run', e' := ValidateRequest(support, run), ValidateEffectRequest(support, run, e);
  }

  lemma ExampleIsCleared()
    ensures ClearanceEnding(
              SettingFor(ExampleSupport(), ExampleConfig(), ExampleRun(), ExampleMutation(), "verifier"), ZERO_USAGE, ExampleRun().subject, [],
              ExampleMutation()).None?
  {
    hide CollidingScript, CheckEffectRequest, EffectIsValid, ExampleSupport, BudgetAdmission, GatesFor, ExampleDigest;
    AdmittedExactly(ExampleSupport().contracts, ExampleRun(), ExampleMutation());
    ExampleMutationIsValid();
    ExampleIsConfigured();
    ExampleHashing();
    ExampleGatesAllow();
  }

  lemma ExampleHashing()
    ensures ExampleSupport().contracts.hashes.effect(ExampleMutation()) == ExampleDigest('e')
  {
  }

  lemma ExampleIsPrepared()
    ensures IsPrepared(ExampleSupport(), ExampleConfig(), ExampleRun(), ExampleMutation(), "verifier")
  {
    hide ClearanceEnding, CollidingScript, CheckRequest, ConfigIsValid, SupportIsValid, RequestIsValid, ExampleDigest, PlanDecision;
    ExampleHashesAreWellFormed();
    ExampleRunIsValid();
    AdmittedExactly(ExampleSupport().contracts, ExampleRun(), ExampleMutation());
    ExampleIsConfigured();
    ExampleGatesAllow();
    ExampleIsCleared();
    ExampleDigestsDiffer();
  }

  /** A run that completes, and whose statement the second checker refuses, from nothing. */
  method RefusedCompletion() returns (result: RunEngine.RunResult, ghost steps: seq<EffectStep>, ghost final: Subject)
    ensures result.Success? && result.value.receipt.body.terminalStatus == Completed
    ensures VerifyReceipt(ExampleSupport().contracts, ExampleRun(), result.value.receipt)
    ensures CheckStatement(ExampleSupport().contracts, Statement(ExampleRun(), result.value.receipt, Records(steps), final)).Some?
    ensures final.digest == result.value.receipt.body.resultingSubject
  {
    hide *;
    ExampleIsPrepared();
    result, steps, final := CompleteCollidingRun(ExampleSupport(), ExampleConfig(), ExampleRun(), ExampleMutation(), "verifier");
  }
}

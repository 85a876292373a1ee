/** One protected effect as the ledger shows it: the gate decisions, the execution and the mutation. */
module EffectSteps {
  import opened Text
  import opened Contracts
  import opened UsageArithmetic
  import opened RunCoordinator
  import opened RuntimeModel
  import opened ConfiguredGates
  import opened ReceiptChecker
  import opened ResultChecker
  import opened EffectResults
  import opened DecisionIds
  import opened LedgerFacts
  import opened AgentLedger

  /** The decisions of the gates an effect passes; only mutations meet the workflow gate. */
  datatype Gates = Gates(permission: Decision, toolTrust: Decision, runtime: Decision, workflow: Option<Decision>)

  const NO_GATES := Gates(Decide(Block, WorkflowInvalidInput, []), Decide(Block, WorkflowInvalidInput, []), Decide(Block, WorkflowInvalidInput, []), None)

  function GatesFor(support: RuntimeSupport, config: RuntimeConfig, currentCost: nat, request: EffectRequest, effectDigest: string): Gates {
    var permission := Evaluate(PermissionInputFor(effectDigest, support.policy));
    var toolTrust := Evaluate(ToolTrustInputFor(support, request.capability, request.toolSchemaDigest));
    var runtime := Evaluate(RuntimeInputFor(support, config, currentCost, effectDigest));
    Gates(permission, toolTrust, runtime,
          if request.effectClass.MutationEffect? then Some(Evaluate(MutationInputFor(permission, toolTrust, runtime))) else None)
  }

  /** The mutation boundary never authorises completion, and allows only by its own code. */
  lemma MutationBoundaryDecides(permission: Decision, toolTrust: Decision, runtime: Decision)
    ensures var d := Evaluate(MutationInputFor(permission, toolTrust, runtime));
            && !AuthorizesCompletion(WorkflowGate, d)
            && (d.outcome.Allow? ==> d.code == Fixed(MutationAuthorized))
  {
  }

  predicate GatesAllow(gates: Gates) {
    && gates.permission.outcome.Allow? && gates.toolTrust.outcome.Allow? && gates.runtime.outcome.Allow?
    && (gates.workflow.Some? ==> gates.workflow.value.outcome.Allow?)
  }

  /** The decision of one gate on an effect, recorded as event `n`. */
  function GateEvent(n: nat, request: EffectRequest, effectDigest: string, prefix: IdPrefix, gate: Gate, decision: Decision): RunEvent {
    EffectDecision(n, DecisionId(request.effectSequence, prefix, n), gate, effectDigest, request.subject.digest, decision)
  }

  /** The three decisions that every allowed effect has, after `start` earlier events. */
  function CommonGateEvents(
    start: nat, request: EffectRequest, effectDigest: string, permission: Decision, toolTrust: Decision, runtime: Decision): (events: seq<RunEvent>)
    ensures |events| == 3
  {
    [GateEvent(start + 1, request, effectDigest, PermissionId, PermissionGate, permission),
     GateEvent(start + 2, request, effectDigest, ToolTrustId, ToolTrustGate, toolTrust),
     GateEvent(start + 3, request, effectDigest, RuntimeId, RuntimeGate, runtime)]
  }

  /** The gate decisions after `start` earlier events: each gate is asked only when the ones before it allowed. */
  function GateTrail(start: nat, request: EffectRequest, effectDigest: string, gates: Gates): seq<RunEvent> {
    [GateEvent(start + 1, request, effectDigest, PermissionId, PermissionGate, gates.permission)]
    + if !gates.permission.outcome.Allow? then []
      else
        [GateEvent(start + 2, request, effectDigest, ToolTrustId, ToolTrustGate, gates.toolTrust)]
        + if !gates.toolTrust.outcome.Allow? then []
          else
            [GateEvent(start + 3, request, effectDigest, RuntimeId, RuntimeGate, gates.runtime)]
            + if !gates.runtime.outcome.Allow? || gates.workflow.None? then []
              else [GateEvent(start + 4, request, effectDigest, WorkflowId, WorkflowGate, gates.workflow.value)]
  }

  /** An effect that every gate allowed; `start` events precede its first decision. */
  datatype Clearance = Clearance(start: nat, request: EffectRequest, effectDigest: string, gates: Gates)
  {
    function PermissionIdText(): string {
      DecisionId(request.effectSequence, PermissionId, start + 1)
    }

    function WorkflowIdText(): string {
      DecisionId(request.effectSequence, WorkflowId, start + 4)
    }

    predicate IsMutation() {
      request.effectClass.MutationEffect?
    }

    function GateEvents(): seq<RunEvent> {
      CommonGateEvents(start, request, effectDigest, gates.permission, gates.toolTrust, gates.runtime)
      + if gates.workflow.None? then []
        else [GateEvent(start + 4, request, effectDigest, WorkflowId, WorkflowGate, gates.workflow.value)]
    }

    function ExecutionSequence(): nat {
      start + if gates.workflow.None? then 4 else 5
    }

    /** The decision that every attempt's result cites. */
    function Cited(): CitedDecision {
      CitedDecision(PermissionIdText(), PermissionGate, effectDigest, request.subject.digest, gates.permission)
    }
  }

  datatype EffectStep = EffectStep(cleared: Clearance, result: EffectResult)
  {
    /** Whether the result moved the current subject. */
    predicate Mutates() {
      cleared.IsMutation() && result.body.postSubject.Some?
    }

    function SubjectAfter(): Subject {
      if Mutates() then result.body.postSubject.value else cleared.request.subject
    }

    function ExecutionEvent(): RunEvent {
      ToolExecutionEvent(cleared.ExecutionSequence(), cleared.PermissionIdText(), cleared.effectDigest, cleared.request.capability.digest, result)
    }

    function MutationEvent(hashes: Hashes): RunEvent
      requires Mutates()
    {
      Mutation(cleared.ExecutionSequence() + 1, cleared.WorkflowIdText(), cleared.effectDigest,
               cleared.request.subject.digest, result.body.postSubject.value.digest, [ArtifactReference(hashes, result.body.evidence)])
    }

    function AttemptEvents(hashes: Hashes): seq<RunEvent> {
      [ExecutionEvent()] + if Mutates() then [MutationEvent(hashes)] else []
    }

    function Events(hashes: Hashes): seq<RunEvent> {
      cleared.GateEvents() + AttemptEvents(hashes)
    }
  }

  /** An admitted effect that every gate allowed; a mutation was allowed by the mutation boundary's own code. */
  ghost predicate IsCleared(support: ContractSupport, run: AgentRunRequest, c: Clearance) {
    && CheckEffectRequest(support, run, c.request).None?
    && c.effectDigest == support.hashes.effect(c.request)
    && GatesAllow(c.gates) && IsGateDecision(c.gates.permission)
    && (c.IsMutation() <==> c.gates.workflow.Some?)
    && (c.gates.workflow.Some? ==> c.gates.workflow.value.code == Fixed(MutationAuthorized))
  }

  /** The decision a cleared effect's results cite binds the request, its subject and the permission gate. */
  lemma ClearanceCites(support: ContractSupport, run: AgentRunRequest, c: Clearance)
    requires support.hashes.WellFormed() && IsCleared(support, run, c)
    ensures CitesPermission(support, c.request, c.Cited()) && SubjectIsValid(c.request.subject.(digest := c.effectDigest))
  {
    hide CheckEffectRequest, DecisionId, DecisionIsRecordable;
  }

  /** An effect the executor completed, with a result that the checker accepts. */
  ghost predicate StepSucceeded(support: ContractSupport, run: AgentRunRequest, step: EffectStep) {
    && IsCleared(support, run, step.cleared)
    && VerifyResult(support, run, step.cleared.request, step.result)
    && step.result.body.status.Executed?
    && step.result.body.usage.toolCalls >= 1
    && step.result.body.cited == step.cleared.Cited()
  }

  /** The decision that authorises completion of this subject. */
  predicate IsCompletionOf(e: RunEvent, subjectDigest: string) {
    && e.EffectDecision? && AuthorizesCompletion(e.gate, e.decision)
    && e.effectDigest == subjectDigest && e.subjectDigest == subjectDigest
  }

  function Blocks(hashes: Hashes, steps: seq<EffectStep>): seq<RunEvent> {
    if steps == [] then [] else Blocks(hashes, steps[..|steps| - 1]) + steps[|steps| - 1].Events(hashes)
  }

  /** Each effect starts from the subject that the previous one left. */
  predicate StepsChain(initial: Subject, steps: seq<EffectStep>, final: Subject) {
    if steps == [] then initial == final
    else
      var last := steps[|steps| - 1];
      last.SubjectAfter() == final && StepsChain(initial, steps[..|steps| - 1], last.cleared.request.subject)
  }

  function Requests(steps: seq<EffectStep>): (items: seq<EffectRequest>)
    ensures |items| == |steps|
  {
    seq(|steps|, i requires 0 <= i < |steps| => steps[i].cleared.request)
  }

  function Results(steps: seq<EffectStep>): (items: seq<EffectResult>)
    ensures |items| == |steps|
  {
    seq(|steps|, i requires 0 <= i < |steps| => steps[i].result)
  }

  /** What a run has been charged after these steps: the plan, then each step asked for and each effect executed. */
  function ChargesOf(script: PortScript, steps: seq<EffectStep>): seq<Usage> {
    if steps == [] then [ReplyUsage(script.plan)]
    else
      var last := |steps| - 1;
      ChargesOf(script, steps[..last]) + [ReplyUsage(script.steps(last)), steps[last].result.body.usage]
  }

  /** The ledger's account of a run so far: nothing but completed effects names an effect digest. */
  ghost predicate Traced(support: ContractSupport, run: AgentRunRequest, events: seq<RunEvent>, steps: seq<EffectStep>, subject: Subject) {
    && Mentions(events) == Blocks(support.hashes, steps)
    && StepsChain(run.subject, steps, subject)
    && (forall i | 0 <= i < |steps| :: StepSucceeded(support, run, steps[i]))
    && AreDistinctEffects(support.hashes, Requests(steps))
  }

  lemma {:induction false} TracedGrows(
    support: ContractSupport, run: AgentRunRequest, before: seq<RunEvent>, steps: seq<EffectStep>, subject: Subject, after: seq<RunEvent>, step: EffectStep)
    requires Traced(support, run, before, steps, subject)
    requires Mentions(after) == Mentions(before) + step.Events(support.hashes)
    requires step.cleared.request.subject == subject && StepSucceeded(support, run, step)
    requires AreDistinctEffects(support.hashes, Requests(steps) + [step.cleared.request])
    ensures Traced(support, run, after, steps + [step], step.SubjectAfter())
    ensures Requests(steps + [step]) == Requests(steps) + [step.cleared.request] && Results(steps + [step]) == Results(steps) + [step.result]
  {
    hide StepSucceeded, Mentions, AreDistinctEffects, EffectStep.Events, EffectStep.SubjectAfter;
    RequestsGrow(steps, step);
    ghost var longer := steps + [step];
    assert longer[..|steps|] == steps && longer[|steps|] == step;
    assert forall i | 0 <= i < |steps| :: longer[i] == steps[i];
  }

  lemma RequestsGrow(steps: seq<EffectStep>, step: EffectStep)
    ensures Requests(steps + [step]) == Requests(steps) + [step.cleared.request] && Results(steps + [step]) == Results(steps) + [step.result]
  {
  }

  /** A completed run's ledger names exactly the executed effects, in order, and then one completion of the subject they left. */
  ghost predicate CompletedLedger(
    support: ContractSupport, run: AgentRunRequest, events: seq<RunEvent>, results: seq<EffectResult>, steps: seq<EffectStep>, final: Subject)
  {
    && results == Results(steps)
    && StepsChain(run.subject, steps, final)
    && (forall i | 0 <= i < |steps| :: StepSucceeded(support, run, steps[i]))
    && AreDistinctEffects(support.hashes, Requests(steps))
    && (exists e :: IsCompletionOf(e, final.digest) && Mentions(events) == Blocks(support.hashes, steps) + [e])
  }

  /** What the executed effects used together. */
  function StepsUsage(steps: seq<EffectStep>): Usage {
    if steps == [] then ZERO_USAGE
    else Plus(StepsUsage(steps[..|steps| - 1]), steps[|steps| - 1].result.body.usage)
  }

  lemma {:induction false} StepsUsageIsCharged(script: PortScript, steps: seq<EffectStep>)
    ensures AtMost(StepsUsage(steps), Total(ChargesOf(script, steps)))
  {
    if steps != [] {
      var last := |steps| - 1;
      var earlier := ChargesOf(script, steps[..last]);
      var asked, used := ReplyUsage(script.steps(last)), steps[last].result.body.usage;
      StepsUsageIsCharged(script, steps[..last]);
      TotalGrows(earlier, asked);
      TotalGrows(earlier + [asked], used);
      assert ChargesOf(script, steps) == earlier + [asked] + [used];
    }
  }

  // ---- What must hold when the executor is called ----

  /** One call of the executor: the clearance, with the run's usage and ledger at that moment. */
  datatype Dispatch = Dispatch(cleared: Clearance, usage: Usage, events: seq<RunEvent>)

  function DispatchedRequests(dispatched: seq<Dispatch>): (items: seq<EffectRequest>)
    ensures |items| == |dispatched|
  {
    seq(|dispatched|, i requires 0 <= i < |dispatched| => dispatched[i].cleared.request)
  }

  /** Every executor call was authorised and affordable, and the calls were for distinct effects numbered from one. */
  ghost predicate DispatchesAreSound(support: RuntimeSupport, config: RuntimeConfig, run: AgentRunRequest, dispatched: seq<Dispatch>) {
    && |dispatched| <= config.maxEffects
    && AreDistinctEffects(support.contracts.hashes, DispatchedRequests(dispatched))
    && forall i | 0 <= i < |dispatched| :: DispatchIsAuthorized(support, config, run, dispatched[i])
  }

  lemma DispatchesGrow(support: RuntimeSupport, config: RuntimeConfig, run: AgentRunRequest, dispatched: seq<Dispatch>, d: Dispatch)
    requires DispatchesAreSound(support, config, run, dispatched) && |dispatched| < config.maxEffects
    requires AreDistinctEffects(support.contracts.hashes, DispatchedRequests(dispatched) + [d.cleared.request])
    requires DispatchIsAuthorized(support, config, run, d)
    ensures DispatchesAreSound(support, config, run, dispatched + [d])
    ensures DispatchedRequests(dispatched + [d]) == DispatchedRequests(dispatched) + [d.cleared.request]
  {
    hide DispatchIsAuthorized, AreDistinctEffects;
    assert DispatchedRequests(dispatched + [d]) == DispatchedRequests(dispatched) + [d.cleared.request];
  }

  predicate RecordsAllow(events: seq<RunEvent>, effectDigest: string, subject: string, gate: Gate) {
    exists j | 0 <= j < |events| ::
      && events[j].EffectDecision? && events[j].effectDigest == effectDigest && events[j].subjectDigest == subject
      && events[j].gate == gate && events[j].decision.outcome.Allow?
  }

  /** The projected usage stays below the hard stop in cost and within the budget in the other dimensions. */
  predicate IsAffordable(support: RuntimeSupport, config: RuntimeConfig, run: AgentRunRequest, usage: Usage) {
    var projected := Plus(usage, support.estimate);
    && UsageIsSafe(projected)
    && projected.cost < config.thresholds.hardStop
    && projected.elapsed <= run.budget.maxElapsed && projected.tokens <= run.budget.maxTokens && projected.toolCalls <= run.budget.maxToolCalls
  }

  /** The configuration permits the call: the policy permits the effect, the tool is trusted, and from the approval threshold on an
      approval covers the projected cost. */
  ghost predicate IsPermitted(support: RuntimeSupport, config: RuntimeConfig, usage: Usage, request: EffectRequest, effectDigest: string) {
    && PolicyPermits(support.policy, effectDigest)
    && ToolIsTrusted(support, request.capability, request.toolSchemaDigest)
    && var projected := usage.cost + support.estimate.cost;
    (config.thresholds.approval <= projected ==> CostIsCovered(support.runtimeApprovals, effectDigest, projected))
  }

  /** Gates that allow do so because the configuration permits. */
  lemma AllowedIsPermitted(support: RuntimeSupport, config: RuntimeConfig, usage: Usage, request: EffectRequest, effectDigest: string)
    requires GatesAllow(GatesFor(support, config, usage.cost, request, effectDigest))
    ensures IsPermitted(support, config, usage, request, effectDigest)
  {
    hide EvaluatePlan, EvaluatePermission, EvaluateToolTrust, EvaluateVerification, EvaluateWorkflow, EvaluateRuntime;
    hide PolicyPermits, ToolIsTrusted, CostIsCovered, ApprovalFor, IsDigest, NonBlank;
    var projected := usage.cost + support.estimate.cost;
    PermissionFollowsPolicy(support.policy, effectDigest);
    ToolTrustFollowsSupport(support, request.capability, request.toolSchemaDigest);
    FoundIsApproval(support.runtimeApprovals, effectDigest);
    FoundIsFirst(support.runtimeApprovals, effectDigest, projected);
  }

  ghost predicate DispatchIsAuthorized(support: RuntimeSupport, config: RuntimeConfig, run: AgentRunRequest, d: Dispatch) {
    var c := d.cleared;
    var subject := c.request.subject.digest;
    && CheckEffectRequest(support.contracts, run, c.request).None?
    && c.effectDigest == support.contracts.hashes.effect(c.request)
    && RecordsAllow(d.events, c.effectDigest, subject, PermissionGate)
    && RecordsAllow(d.events, c.effectDigest, subject, ToolTrustGate)
    && RecordsAllow(d.events, c.effectDigest, subject, RuntimeGate)
    && (c.IsMutation() ==> RecordsAllow(d.events, c.effectDigest, subject, WorkflowGate))
    && IsAffordable(support, config, run, d.usage)
    && IsPermitted(support, config, d.usage, c.request, c.effectDigest)
  }

  /** A runtime gate that allows, after budget admission, has bounded every dimension. */
  lemma AllowedIsAffordable(
    support: RuntimeSupport, config: RuntimeConfig, run: AgentRunRequest, usage: Usage, request: EffectRequest, effectDigest: string)
    requires BudgetAdmission(usage, run.budget, support.estimate).None?
    requires GatesFor(support, config, usage.cost, request, effectDigest).runtime.outcome.Allow?
    ensures IsAffordable(support, config, run, usage)
  {
    hide EvaluatePlan, EvaluatePermission, EvaluateToolTrust, EvaluateVerification, EvaluateWorkflow, EvaluateRuntime, BudgetAdmission;
  }

  lemma ClearedIsAuthorized(
    support: RuntimeSupport, config: RuntimeConfig, run: AgentRunRequest, c: Clearance, usage: Usage, before: seq<RunEvent>, events: seq<RunEvent>)
    requires IsCleared(support.contracts, run, c) && IsAffordable(support, config, run, usage)
    requires IsPermitted(support, config, usage, c.request, c.effectDigest)
    requires events == before + c.GateEvents()
    ensures DispatchIsAuthorized(support, config, run, Dispatch(c, usage, events))
  {
    hide CheckEffectRequest, DecisionId, IsAffordable, IsPermitted, IsGateDecision;
    var n := |before|;
    assert events[n].gate == PermissionGate && events[n + 1].gate == ToolTrustGate && events[n + 2].gate == RuntimeGate;
    if c.IsMutation() {
      assert events[n + 3].gate == WorkflowGate;
    }
  }

  /** If an executor's usage is at most the estimate, accounting for the effect neither overflows nor exceeds the budget. */
  lemma EstimatedUsageFits(support: RuntimeSupport, config: RuntimeConfig, run: AgentRunRequest, current: Usage, used: Usage)
    requires ConfigIsValid(config, run)
    requires IsAffordable(support, config, run, current) && AtMost(used, support.estimate)
    ensures UsageIsSafe(Plus(current, used)) && WithinBudget(Plus(current, used), run.budget)
  {
  }
}

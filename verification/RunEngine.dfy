/** The bounded run engine: plan, four gates per effect, execute, verify, claim, complete. */
module RunEngine {
  import opened Text
  import opened Contracts
  import opened UsageArithmetic
  import opened RunCoordinator
  import opened RuntimeModel
  import opened ReceiptChecker
  import opened ReceiptTrace
  import opened ResultChecker
  import opened EffectResults
  import ResultBuilder
  import opened DecisionIds
  import opened LedgerFacts
  import opened AgentLedger
  import opened EffectSteps
  import opened RunEndings

  datatype Execution = Execution(receipt: Receipt, results: seq<EffectResult>)

  datatype RuntimeError =
    | ContractRefused(code: ErrorCode)
    | InvalidConfig
    | ReceiptRefused(code: ErrorCode)
    | ResultRefused(code: ErrorCode)

  type RunResult = Result<Execution, RuntimeError>

  /** A result could not be sealed, so the run ends without a receipt. */
  predicate IsRefusal(result: RunResult) {
    result.Failure? && result.error.ResultRefused?
  }

  datatype LedgerView = LedgerView(
    count: nat, mentions: seq<RunEvent>, accepted: seq<EffectRequest>, results: seq<EffectResult>,
    charges: seq<Usage>, usage: Usage, mutationRequired: bool, mutationAuthorized: bool)

  lemma TerminalTransition(from: RunStatus, to: RunStatus)
    requires !from.IsTerminal() && to.IsTerminal() && (to == Completed ==> from == Verifying)
    ensures ValidTransition(from, to)
  {
  }

  /** A finished ledger's body is refused only for its length. */
  lemma FinishedBodyIsAccepted(support: ContractSupport, request: AgentRunRequest, body: ReceiptBody, st: Replay)
    requires CheckRequest(request, support.policies).None?
    requires body.schemaVersion == TERMINAL_RUN_RECEIPT_SCHEMA && body.requestId == request.requestId && body.runId == request.runId
    requires body.requestDigest == support.hashes.request(request) && body.initialSubject == request.subject.digest
    requires IsDigest(body.resultingSubject) && body.terminalStatus.IsTerminal() && PhraseIsNonBlank(body.terminalReason)
    requires UsageIsSafe(body.usage) && EndsIn(body.events, body.terminalStatus)
    requires Replays(request, body.events, st)
    requires st.status == body.terminalStatus && st.subject == body.resultingSubject && st.usage == Some(body.usage)
    requires body.terminalStatus == Interrupted ==> st.interrupted
    requires if body.terminalStatus == Completed then CheckCompleted(request, body.usage, st).None? else st.completion.None?
    ensures CheckReceiptBody(support, request, body).None? <==> |body.events| <= MAX_SAFE_INTEGER
  {
    hide CheckRequest, CheckCompleted, ReplayEvents, IsDigest, CheckEvent, Apply, PhraseIsNonBlank;
    if |body.events| > MAX_SAFE_INTEGER {
      TooLongIsRefused(request, body.events);
    }
  }

  /** Later usage and status changes leave the completion conditions alone. */
  lemma CompletionConditionsPersist(request: AgentRunRequest, usage: Usage, before: Replay, after: Replay)
    requires CheckCompleted(request, usage, before).None?
    requires after.passing == before.passing && after.lastMutation == before.lastMutation
    requires after.subject == before.subject && after.completion == before.completion
    ensures CheckCompleted(request, usage, after).None?
  {
  }

  class AgentRunEngine {
    const support: RuntimeSupport
    const config: RuntimeConfig
    const script: PortScript

    /** How often the agent was asked for a step and the executor was called: they pick the next scripted reply. */
    var stepsAsked: nat
    var executions: nat
    var closed: bool

    /** Every call of the executor so far. */
    ghost var dispatched: seq<Dispatch>

    constructor (support: RuntimeSupport, config: RuntimeConfig, script: PortScript)
      ensures this.support == support && this.config == config && this.script == script
      ensures stepsAsked == 0 && executions == 0 && !closed && dispatched == []
    {
      this.support := support;
      this.config := config;
      this.script := script;
      stepsAsked := 0;
      executions := 0;
      closed := false;
      dispatched := [];
    }

    /** The ledger belongs to an admitted request, and its checker has not yet seen an interruption or a completion. */
    ghost predicate IsOpen(l: Ledger)
      reads l
    {
      && support.contracts.hashes.WellFormed() && l.hashes == support.contracts.hashes
      && CheckRequest(l.request, support.contracts.policies).None?
      && l.requestDigest == support.contracts.hashes.request(l.request)
      && l.Sound() && !l.status.IsTerminal()
      && Interruptions(l.events) == 0 && l.replay.completion.None? && CompletionId() !in l.replay.decisions
    }

    /** What `Finish` needs of its caller for the receipt to be accepted. */
    ghost predicate CanFinish(l: Ledger, terminal: RunStatus, reason: Phrase)
      reads l
    {
      && support.contracts.hashes.WellFormed() && l.hashes == support.contracts.hashes
      && CheckRequest(l.request, support.contracts.policies).None?
      && l.requestDigest == support.contracts.hashes.request(l.request)
      && l.Sound() && !l.status.IsTerminal()
      && terminal.IsTerminal() && PhraseIsNonBlank(reason)
      && Interruptions(l.events) == (if terminal == Interrupted then 1 else 0)
      && (if terminal == Completed then l.status == Verifying && CheckCompleted(l.request, l.usage, l.replay).None?
          else l.replay.completion.None?)
    }

    /** The outcome is this ledger's receipt, accepted by the checker, or the ledger is too long to be one. */
    ghost predicate Concluded(l: Ledger, result: RunResult)
      reads l
    {
      match result
      case Success(x) =>
        var body := x.receipt.body;
        && |l.events| <= MAX_SAFE_INTEGER
        && body == l.Body(body.terminalStatus, body.terminalReason) && l.status == body.terminalStatus
        && x.receipt.digest == support.contracts.hashes.receipt(body)
        && CheckReceiptBody(support.contracts, l.request, body).None?
        && x.results == l.effectResults
        && Interruptions(body.events) == (if body.terminalStatus == Interrupted then 1 else 0)
        && UsageNeverRepeats(body.events)
        && body.usage == Cap(Total(l.charges))
      case Failure(ReceiptRefused(_)) => |l.events| > MAX_SAFE_INTEGER
      case Failure(e) => e.ResultRefused?
    }

    /** The first cancellation that the agent or else the executor reports. */
    function CancellationSeen(): Option<Cancellation> {
      if script.agentCancellation.Some? then script.agentCancellation else script.executorCancellation
    }

    /** Every ending except a completion or an interruption gives way to a cancellation, unless authority was asked for. */
    function ObservedCancellation(terminal: RunStatus, status: RunStatus): Option<Cancellation> {
      if terminal !in {Interrupted, Completed} && status != AwaitingAuthority then CancellationSeen() else None
    }

    /** A run that ends like this ends so unless a cancellation was reported, which takes its place. */
    predicate EndsAs(result: RunResult, status: RunStatus, reason: Phrase) {
      result.Success? ==>
        var body := result.value.receipt.body;
        if CancellationSeen().Some? then body.terminalStatus == Interrupted && body.terminalReason == Fixed(RuntimeInterrupted)
        else body.terminalStatus == status && body.terminalReason == reason
    }

    /** Ends exactly like this, whatever was cancelled. */
    predicate EndsFirmly(result: RunResult, status: RunStatus, reason: Phrase) {
      result.Success? ==> result.value.receipt.body.terminalStatus == status && result.value.receipt.body.terminalReason == reason
    }

    predicate EndsBy(result: RunResult, ending: Ending) {
      if ending.firm then EndsFirmly(result, ending.status, ending.reason) else EndsAs(result, ending.status, ending.reason)
    }

    /** The run ends as expected when an end is expected, and otherwise goes on; a refusal to seal comes before either. */
    predicate Meets(result: Option<RunResult>, expected: Option<Ending>) {
      && (result.None? ==> expected.None?)
      && (result.Some? && !IsRefusal(result.value) ==> expected.Some? && EndsBy(result.value, expected.value))
    }

    /** The ledger's event after the first `n` is an interruption by this cancellation, as far as it can be recorded. */
    ghost predicate ShowsCancellation(l: Ledger, n: nat, cancellation: Cancellation)
      reads l`events
    {
      && support.contracts.hashes.WellFormed() && n < |l.events|
      && var clean := SanitizeCancellation(support.contracts.hashes, cancellation);
      l.events[n] == Interruption(n + 1, clean.actorId, clean.reason, clean.evidence)
    }

    /** An agent that cancels is recorded as an interruption after the first `n` events. */
    ghost predicate ObeysCancellation(l: Ledger, n: nat, reply: PortReply<AgentStep>)
      reads l`events
    {
      reply.Success? && reply.value.value.CancelRun? ==>
        exists k | n <= k < |l.events| :: ShowsCancellation(l, k, reply.value.value.cancellation)
    }

    /** What this run's replies are judged by. */
    function SettingOf(run: AgentRunRequest): Setting {
      Setting(support, config, script, run)
    }

    method Finish(l: Ledger, terminal: RunStatus, why: Phrase) returns (result: RunResult)
      requires CanFinish(l, terminal, why)
      modifies l`status, l`events, l`replay
      ensures Concluded(l, result) && !IsRefusal(result)
      ensures terminal != Completed ==> Ended(l, result)
      ensures terminal !in {Interrupted, Completed} && old(l.status) != AwaitingAuthority ==> EndsAs(result, terminal, why)
      ensures terminal in {Interrupted, Completed} || old(l.status) == AwaitingAuthority ==> EndsFirmly(result, terminal, why)
      ensures terminal !in {Interrupted, Completed} && old(l.status) != AwaitingAuthority ==>
                && (script.agentCancellation.Some? ==> ShowsCancellation(l, old(|l.events|), script.agentCancellation.value))
                && (script.agentCancellation.None? && script.executorCancellation.Some? ==>
                      ShowsCancellation(l, old(|l.events|), script.executorCancellation.value))
      ensures old(l.events) <= l.events && |l.events| <= old(|l.events|) + 3 && Mentions(l.events) == old(Mentions(l.events))
    {
      hide CheckCompleted, CheckRequest, NonBlank, IsDigest, EvidenceIsValid, Concluded;
      hide Mentions, Interruptions, UsageAt, UsageNeverRepeats, Total, Replays, SanitizeCancellation;
      var status, reason := terminal, why;
      var cancellation := ObservedCancellation(terminal, l.status);
      if cancellation.Some? {
        l.RecordInterruption(SanitizeCancellation(support.contracts.hashes, cancellation.value));
        status, reason := Interrupted, Fixed(RuntimeInterrupted);
      }
      result := SealRun(l, status, reason);
    }

    /** Records the last usage and the terminal status, and seals the receipt. */
    method SealRun(l: Ledger, status: RunStatus, reason: Phrase) returns (result: RunResult)
      requires CanFinish(l, status, reason)
      modifies l`status, l`events, l`replay
      ensures Concluded(l, result) && !IsRefusal(result) && EndsFirmly(result, status, reason)
      ensures old(l.events) <= l.events && |l.events| <= old(|l.events|) + 2 && Mentions(l.events) == old(Mentions(l.events))
    {
      hide CheckHeader, CheckFinal, CheckReceiptBody, CheckCompleted, CheckRequest, ValidTransition, NonBlank, IsDigest, EvidenceIsValid;
      hide Mentions, Interruptions, UsageAt, UsageNeverRepeats, Total, Replays;
      ghost var before := l.replay;
      l.UsageEvent();
      TerminalTransition(l.status, status);
      l.Transition(status, Some(reason));
      if status == Completed {
        CompletionConditionsPersist(l.request, l.usage, before, l.replay);
      }
      FinishedBodyIsAccepted(support.contracts, l.request, l.Body(status, reason), l.replay);
      var body := l.Body(status, reason);
      var sealed := SealReceipt(support.contracts, l.request, body);
      return if sealed.Failure? then Failure(ReceiptRefused(sealed.error)) else Success(Execution(sealed.value, l.effectResults));
    }

    /** The run ended, and not in a completion. */
    ghost predicate Ended(l: Ledger, result: RunResult)
      reads l
    {
      Concluded(l, result) && (result.Success? ==> result.value.receipt.body.terminalStatus != Completed)
    }

    lemma RefusalConcludes(l: Ledger, code: ErrorCode)
      ensures Ended(l, Failure(ResultRefused(code)))
    {
    }

    /** Ends an open run for a fixed reason. */
    method End(l: Ledger, status: RunStatus, why: Word) returns (result: RunResult)
      requires IsOpen(l) && l.status != AwaitingAuthority && status in {Blocked, Failed}
      modifies l`status, l`events, l`replay
      ensures EndsAs(result, status, Fixed(why))
      ensures Ended(l, result) && !IsRefusal(result)
      ensures |l.events| <= old(|l.events|) + 3
    {
      hide Concluded, CheckRequest, Interruptions, Ledger.SoundAt, Hashes.WellFormed, Mentions;
      result := Finish(l, status, Fixed(why));
    }

    method BlockedFromDecision(l: Ledger, decision: Decision) returns (result: RunResult)
      requires IsOpen(l) && l.status in {Planning, Executing} && PhraseIsNonBlank(decision.code)
      modifies l`status, l`events, l`replay
      ensures Ended(l, result) && !IsRefusal(result)
      ensures EndsBy(result, Blocking(decision))
      ensures |l.events| <= old(|l.events|) + 4 && Mentions(l.events) == old(Mentions(l.events))
    {
      hide Mentions;
      hide Concluded, CheckRequest, PhraseIsNonBlank, CancellationSeen, Interruptions, Ledger.SoundAt;
      if decision.outcome.Ask? {
        l.Transition(AwaitingAuthority, Some(decision.code));
      }
      result := Finish(l, Blocked, decision.code);
    }

    /** The request is admitted and named by its digest. */
    ghost predicate IsAdmitted(l: Ledger, request: EffectRequest, effectDigest: string) {
      && CheckEffectRequest(support.contracts, l.request, request).None?
      && effectDigest == support.contracts.hashes.effect(request)
    }

    function Sealed(body: ResultBody): EffectResult {
      EffectResult(support.contracts.hashes.result(body), body)
    }

    /** Sealing came before: the last result is this one, which the checker accepts, and nothing else was retained. */
    ghost predicate Retains(l: Ledger, before: seq<EffectResult>, request: EffectRequest, body: ResultBody)
      reads l`effectResults
    {
      l.effectResults == before + [Sealed(body)] && VerifyResult(support.contracts, l.request, request, Sealed(body))
    }

    lemma SealedIsRetained(l: Ledger, before: seq<EffectResult>, request: EffectRequest, body: ResultBody)
      requires support.contracts.hashes.WellFormed() && CheckResultBody(support.contracts, l.request, request, body).None?
      requires l.effectResults == before + [Sealed(body)]
      ensures Retains(l, before, request, body)
    {
      hide CheckResultBody;
    }

    /** One more result was retained, and the checker accepts it for this request. */
    ghost predicate RetainsOne(l: Ledger, before: seq<EffectResult>, request: EffectRequest)
      reads l`effectResults
    {
      && |l.effectResults| == |before| + 1 && l.effectResults[..|before|] == before
      && VerifyResult(support.contracts, l.request, request, l.effectResults[|before|])
    }

    lemma RetainedIsOne(l: Ledger, before: seq<EffectResult>, request: EffectRequest, body: ResultBody)
      requires Retains(l, before, request, body)
      ensures RetainsOne(l, before, request)
    {
      hide VerifyResult;
    }

    lemma DeclineRetainsOne(
      l: Ledger, mentions: seq<RunEvent>, results: seq<EffectResult>, request: EffectRequest, effectDigest: string, gate: Gate, decision: Decision)
      requires RecordsDecline(l, mentions, results, request, effectDigest, gate, decision)
      ensures RetainsOne(l, results, request)
    {
      hide VerifyResult, NonExecutionBody;
    }

    /** Retains a result that says the effect was not executed, and blocks the run. */
    method Refuse(
      l: Ledger, request: EffectRequest, effectDigest: string, id: string, gate: Gate, decision: Decision, evidence: seq<EffectEvidence>)
      returns (result: RunResult)
      requires support.contracts.hashes.WellFormed() && IsAdmitted(l, request, effectDigest)
      requires DecisionIsRecordable(decision) ==> IsOpen(l) && l.status == Executing
      requires NonBlank(id) && !decision.outcome.Allow? && SubjectIsValid(l.currentSubject)
      requires IsKept(evidence) && Kinds(evidence) <= {SubjectObservation, CapabilitySchema}
      requires if l.currentSubject == request.subject then decision.code !in DRIFT_REASONS
               else decision.outcome.Block? && decision.code == Fixed(StaleSubject) && HasKind(evidence, SubjectObservation)
      modifies l`status, l`events, l`replay, l`effectResults
      ensures IsRefusal(result) <==> !DecisionIsRecordable(decision)
      ensures EndsBy(result, Blocking(decision))
      ensures Ended(l, result)
      ensures |l.events| <= old(|l.events|) + 4 && Mentions(l.events) == old(Mentions(l.events))
      ensures !IsRefusal(result) ==>
                var cited := CitedDecision(id, gate, effectDigest, l.currentSubject.digest, decision);
                Retains(l, old(l.effectResults), request, NonExecutionBody(request, l.currentSubject, cited, evidence))
    {
      hide Mentions, VerifyResult;
      hide Concluded, CheckRequest, CheckEffectRequest, CheckResultBody, NonExecutionBody, NonBlank, CancellationSeen, Interruptions, Ledger.SoundAt;
      hide IsKept, Kinds, PhraseIsNonBlank;
      var cited := CitedDecision(id, gate, effectDigest, l.currentSubject.digest, decision);
      NonExecutionSealsExactly(support.contracts, l.request, request, l.currentSubject, cited, evidence);
      var body := ResultBuilder.NonExecution(request, l.currentSubject, cited, evidence);
      var sealed := SealResult(support.contracts, l.request, request, body);
      if sealed.Failure? {
        RefusalConcludes(l, sealed.error);
        return Failure(ResultRefused(sealed.error));
      }
      ghost var before := l.effectResults;
      l.effectResults := l.effectResults + [sealed.value];
      SealedIsRetained(l, before, request, NonExecutionBody(request, l.currentSubject, cited, evidence));
      result := BlockedFromDecision(l, decision);
    }

    /** The ledger's last mention is this decision, and the last result cites it. */
    ghost predicate RecordsDecline(
      l: Ledger, mentions: seq<RunEvent>, results: seq<EffectResult>, request: EffectRequest, effectDigest: string, gate: Gate, decision: Decision)
      reads l
    {
      exists n: nat ::
        var id := DecisionId(request.effectSequence, DeclineId, n);
        var cited := CitedDecision(id, gate, effectDigest, l.currentSubject.digest, decision);
        && Mentions(l.events) == mentions + [EffectDecision(n, id, gate, effectDigest, l.currentSubject.digest, decision)]
        && Retains(l, results, request, NonExecutionBody(request, l.currentSubject, cited, NonExecutionEvidence(support.contracts.hashes, decision)))
    }

    method DeclineProtectedEffect(l: Ledger, request: EffectRequest, effectDigest: string, gate: Gate, decision: Decision)
      returns (result: RunResult)
      requires IsOpen(l) && l.status == Executing && IsAdmitted(l, request, effectDigest)
      requires !decision.outcome.Allow?
      requires if l.currentSubject == request.subject then decision.code !in DRIFT_REASONS
               else decision.outcome.Block? && decision.code == Fixed(StaleSubject)
      modifies l`status, l`events, l`replay, l`mutationAuthorized, l`effectResults
      ensures IsRefusal(result) <==> !DecisionIsRecordable(decision)
      ensures EndsBy(result, Blocking(decision))
      ensures Ended(l, result)
      ensures |l.events| <= old(|l.events|) + 5
      ensures !IsRefusal(result) ==>
                RecordsDecline(l, old(Mentions(l.events)), old(l.effectResults), request, effectDigest, gate, decision)
    {
      hide DecisionId, NonExecutionBody, Retains;
      hide EndsAs, EndsFirmly, UsageAt, Mentions;
      hide Concluded, CheckRequest, CheckEffectRequest, NonBlank, CancellationSeen, Interruptions, DecisionIsRecordable, Kinds, IsKept;
      var id := l.NextDecisionId(DeclineId, request.effectSequence);
      l.RecordDecision(id, gate, effectDigest, decision);
      ghost var n := |l.events|;
      result := Refuse(l, request, effectDigest, id, gate, decision, NonExecutionEvidence(support.contracts.hashes, decision));
      assert id == DecisionId(request.effectSequence, DeclineId, n);
    }

    /** Evaluates one gate and records its decision. */
    method PassGate(l: Ledger, request: EffectRequest, effectDigest: string, prefix: IdPrefix, gate: Gate, input: GateInput)
      returns (id: string, decision: Decision)
      requires IsOpen(l) && IsAdmitted(l, request, effectDigest)
      requires !AuthorizesCompletion(gate, Evaluate(input))
      modifies l`events, l`replay, l`mutationAuthorized
      ensures decision == Evaluate(input) && id == DecisionId(request.effectSequence, prefix, old(|l.events|) + 1)
      ensures l.events == old(l.events) + [EffectDecision(old(|l.events|) + 1, id, gate, effectDigest, l.currentSubject.digest, decision)]
      ensures Mentions(l.events) == old(Mentions(l.events)) + [l.events[|l.events| - 1]]
      ensures decision.outcome.Allow? ==> l.IsAuthorized(id, effectDigest, gate)
      ensures forall other, g | old(l.IsAuthorized(other, effectDigest, g)) :: l.IsAuthorized(other, effectDigest, g)
      ensures IsOpen(l)
      ensures l.mutationAuthorized == (old(l.mutationAuthorized) || (gate.WorkflowGate? && decision.outcome.Allow? && decision.code == Fixed(MutationAuthorized)))
    {
      hide CheckRequest, CheckEffectRequest, NonBlank, Interruptions, DecisionIsRecordable, Evaluate, DecisionId;
      decision := Evaluate(input);
      id := l.NextDecisionId(prefix, request.effectSequence);
      l.RecordDecision(id, gate, effectDigest, decision);
    }

    /** The ledger mentions these gate decisions last, and the last result cites the last of them. */
    ghost predicate RecordsRefusal(l: Ledger, mentions: seq<RunEvent>, results: seq<EffectResult>, request: EffectRequest, trail: seq<RunEvent>)
      reads l
    {
      && Mentions(l.events) == mentions + trail && trail != [] && trail[|trail| - 1].EffectDecision?
      && var e := trail[|trail| - 1];
      Retains(l, results, request,
        NonExecutionBody(request, l.currentSubject, CitedDecision(e.decisionId, e.gate, e.effectDigest, e.subjectDigest, e.decision), []))
    }

    method RefuseGate(l: Ledger, request: EffectRequest, effectDigest: string, id: string, gate: Gate, decision: Decision)
      returns (result: RunResult)
      requires IsOpen(l) && l.status == Executing && IsAdmitted(l, request, effectDigest) && l.currentSubject == request.subject
      requires NonBlank(id) && IsGateDecision(decision) && !decision.outcome.Allow?
      modifies l`status, l`events, l`replay, l`effectResults
      ensures EndsBy(result, Blocking(decision))
      ensures Ended(l, result) && !IsRefusal(result)
      ensures |l.events| <= old(|l.events|) + 4 && Mentions(l.events) == old(Mentions(l.events))
      ensures var cited := CitedDecision(id, gate, effectDigest, l.currentSubject.digest, decision);
              Retains(l, old(l.effectResults), request, NonExecutionBody(request, l.currentSubject, cited, []))
    {
      hide Retains, NonExecutionBody, Mentions;
      hide Concluded, CheckRequest, CheckEffectRequest, NonBlank, Interruptions, PhraseIsNonBlank;
      result := Refuse(l, request, effectDigest, id, gate, decision, []);
    }

    /** The longer trail is on record when its earlier part already was. */
    lemma RefusalExtends(l: Ledger, mentions: seq<RunEvent>, results: seq<EffectResult>, request: EffectRequest, earlier: seq<RunEvent>, trail: seq<RunEvent>)
      requires RecordsRefusal(l, mentions + earlier, results, request, trail)
      ensures RecordsRefusal(l, mentions, results, request, earlier + trail)
    {
      hide Retains, NonExecutionBody, Mentions;
      assert (earlier + trail)[|earlier + trail| - 1] == trail[|trail| - 1];
    }

    lemma RefusalRetainsOne(l: Ledger, mentions: seq<RunEvent>, results: seq<EffectResult>, request: EffectRequest, trail: seq<RunEvent>)
      requires RecordsRefusal(l, mentions, results, request, trail)
      ensures RetainsOne(l, results, request)
    {
      hide VerifyResult, NonExecutionBody, Mentions;
    }

    /** Asks one gate and records its decision; a decision that does not allow ends the run. */
    method AskGate(l: Ledger, request: EffectRequest, effectDigest: string, prefix: IdPrefix, gate: Gate, input: GateInput)
      returns (refused: Option<RunResult>, decision: Decision)
      requires IsOpen(l) && l.status == Executing && IsAdmitted(l, request, effectDigest) && l.currentSubject == request.subject
      requires !AuthorizesCompletion(gate, Evaluate(input))
      modifies l`status, l`events, l`replay, l`mutationAuthorized, l`effectResults
      ensures decision == Evaluate(input) && (refused.None? <==> decision.outcome.Allow?)
      ensures refused.Some? ==>
                && Ended(l, refused.value) && !IsRefusal(refused.value)
                && EndsBy(refused.value, Blocking(decision)) && |l.events| <= old(|l.events|) + 5
                && RecordsRefusal(l, old(Mentions(l.events)), old(l.effectResults), request,
                     [GateEvent(old(|l.events|) + 1, request, effectDigest, prefix, gate, decision)])
      ensures refused.None? ==>
                && IsOpen(l) && l.status == Executing && l.effectResults == old(l.effectResults)
                && l.IsAuthorized(DecisionId(request.effectSequence, prefix, old(|l.events|) + 1), effectDigest, gate)
                && l.events == old(l.events) + [GateEvent(old(|l.events|) + 1, request, effectDigest, prefix, gate, decision)]
                && Mentions(l.events) == old(Mentions(l.events)) + [GateEvent(old(|l.events|) + 1, request, effectDigest, prefix, gate, decision)]
                && l.mutationAuthorized == (old(l.mutationAuthorized) || (gate.WorkflowGate? && decision.code == Fixed(MutationAuthorized)))
                && (forall other, g | old(l.IsAuthorized(other, effectDigest, g)) :: l.IsAuthorized(other, effectDigest, g))
    {
      hide Concluded, CheckRequest, CheckEffectRequest, NonBlank, Interruptions, DecisionIsRecordable, Evaluate, DecisionId, Mentions, IsOpen, Ledger.IsAuthorized;
      hide Retains, NonExecutionBody, EndsAs, EndsFirmly;
      var id;
      id, decision := PassGate(l, request, effectDigest, prefix, gate, input);
      if decision.outcome.Allow? {
        return None, decision;
      }
      var result := RefuseGate(l, request, effectDigest, id, gate, decision);
      refused := Some(result);
    }

    /** The permission, tool trust and runtime gates, in this order; one that does not allow ends the run. */
    method PassCommonGates(l: Ledger, request: EffectRequest, effectDigest: string)
      returns (refused: Option<RunResult>, permission: Decision, toolTrust: Decision, runtime: Decision)
      requires IsOpen(l) && l.status == Executing && IsAdmitted(l, request, effectDigest) && l.currentSubject == request.subject
      modifies l`status, l`events, l`replay, l`mutationAuthorized, l`effectResults
      ensures var gates := GatesFor(support, config, l.usage.cost, request, effectDigest);
              && (refused.None? <==> gates.permission.outcome.Allow? && gates.toolTrust.outcome.Allow? && gates.runtime.outcome.Allow?)
              && (refused.None? ==> permission == gates.permission && toolTrust == gates.toolTrust && runtime == gates.runtime)
              && (refused.Some? ==>
                    && Ended(l, refused.value) && !IsRefusal(refused.value)
                    && GateEnding(gates).Some? && EndsBy(refused.value, GateEnding(gates).value) && |l.events| <= old(|l.events|) + 7
                    && RecordsRefusal(l, old(Mentions(l.events)), old(l.effectResults), request, GateTrail(old(|l.events|), request, effectDigest, gates)))
      ensures refused.None? ==>
                && IsOpen(l) && l.status == Executing
                && l.IsAuthorized(DecisionId(request.effectSequence, PermissionId, old(|l.events|) + 1), effectDigest, PermissionGate)
                && l.effectResults == old(l.effectResults) && l.mutationAuthorized == old(l.mutationAuthorized)
                && l.events == old(l.events) + CommonGateEvents(old(|l.events|), request, effectDigest, permission, toolTrust, runtime)
                && Mentions(l.events) == old(Mentions(l.events)) + CommonGateEvents(old(|l.events|), request, effectDigest, permission, toolTrust, runtime)
    {
      hide Concluded, CheckRequest, CheckEffectRequest, Evaluate, DecisionId, Mentions, IsOpen, Ledger.IsAuthorized, IsAdmitted;
      hide PermissionInputFor, ToolTrustInputFor, RuntimeInputFor, MutationInputFor, GateEvent, RecordsRefusal, EndsBy;
      ghost var start, mentions, results := |l.events|, Mentions(l.events), l.effectResults;
      ghost var whole := GateTrail(start, request, effectDigest, GatesFor(support, config, l.usage.cost, request, effectDigest));
      refused, permission := AskGate(l, request, effectDigest, PermissionId, PermissionGate, PermissionInputFor(effectDigest, support.policy));
      toolTrust, runtime := permission, permission;
      ghost var trail := [GateEvent(start + 1, request, effectDigest, PermissionId, PermissionGate, permission)];
      if refused.Some? {
        assert whole == trail;
        return;
      }
      refused, toolTrust := AskGate(l, request, effectDigest, ToolTrustId, ToolTrustGate, ToolTrustInputFor(support, request.capability, request.toolSchemaDigest));
      ghost var second := [GateEvent(start + 2, request, effectDigest, ToolTrustId, ToolTrustGate, toolTrust)];
      if refused.Some? {
        RefusalExtends(l, mentions, results, request, trail, second);
        assert whole == trail + second;
        return;
      }
      trail := trail + second;
      assert Mentions(l.events) == mentions + trail;
      refused, runtime := AskGate(l, request, effectDigest, RuntimeId, RuntimeGate, RuntimeInputFor(support, config, l.usage.cost, effectDigest));
      ghost var third := [GateEvent(start + 3, request, effectDigest, RuntimeId, RuntimeGate, runtime)];
      if refused.Some? {
        RefusalExtends(l, mentions, results, request, trail, third);
        assert whole == trail + third;
        return;
      }
    }

    /** All the gates an effect must pass before the executor may be called. */
    method PassGates(l: Ledger, request: EffectRequest, effectDigest: string) returns (refused: Option<RunResult>, cleared: Clearance)
      requires IsOpen(l) && l.status == Executing && IsAdmitted(l, request, effectDigest) && l.currentSubject == request.subject
      modifies l`status, l`events, l`replay, l`mutationAuthorized, l`effectResults
      ensures refused.None? <==> GatesAllow(GatesFor(support, config, l.usage.cost, request, effectDigest))
      ensures Meets(refused, GateEnding(GatesFor(support, config, l.usage.cost, request, effectDigest)))
      ensures refused.Some? ==> Ended(l, refused.value) && !IsRefusal(refused.value)
      ensures refused.Some? ==>
                && |l.events| <= old(|l.events|) + 8
                && RecordsRefusal(l, old(Mentions(l.events)), old(l.effectResults), request,
                     GateTrail(old(|l.events|), request, effectDigest, GatesFor(support, config, l.usage.cost, request, effectDigest)))
      ensures refused.None? ==>
                && cleared == Clearance(old(|l.events|), request, effectDigest, GatesFor(support, config, l.usage.cost, request, effectDigest))
                && HoldsClearance(l, cleared) && l.effectResults == old(l.effectResults)
                && l.events == old(l.events) + cleared.GateEvents()
                && Mentions(l.events) == old(Mentions(l.events)) + cleared.GateEvents()
                && l.mutationAuthorized == (old(l.mutationAuthorized) || cleared.IsMutation())
    {
      hide Concluded, CheckRequest, CheckEffectRequest, Evaluate, DecisionId, Mentions, Ledger.IsAuthorized;
      hide PermissionInputFor, ToolTrustInputFor, RuntimeInputFor, MutationInputFor, IsOpen, GateEvent, RecordsRefusal, EndsBy;
      ghost var mentions, results := Mentions(l.events), l.effectResults;
      var start := |l.events|;
      ghost var whole := GateTrail(start, request, effectDigest, GatesFor(support, config, l.usage.cost, request, effectDigest));
      var permission, toolTrust, runtime;
      refused, permission, toolTrust, runtime := PassCommonGates(l, request, effectDigest);
      cleared := Clearance(start, request, effectDigest, Gates(permission, toolTrust, runtime, None));
      if refused.Some? {
        return;
      }
      PermissionIsGateDecision(effectDigest);
      if request.effectClass.MutationEffect? {
        MutationBoundaryDecides(permission, toolTrust, runtime);
        var workflow;
        refused, workflow := AskGate(l, request, effectDigest, WorkflowId, WorkflowGate, MutationInputFor(permission, toolTrust, runtime));
        if refused.Some? {
          RefusalExtends(l, mentions, results, request, CommonGateEvents(start, request, effectDigest, permission, toolTrust, runtime),
            [GateEvent(start + 4, request, effectDigest, WorkflowId, WorkflowGate, workflow)]);
          assert whole ==
                 CommonGateEvents(start, request, effectDigest, permission, toolTrust, runtime)
                 + [GateEvent(start + 4, request, effectDigest, WorkflowId, WorkflowGate, workflow)];
          return;
        }
        cleared := Clearance(start, request, effectDigest, Gates(permission, toolTrust, runtime, Some(workflow)));
      }
    }

    lemma PermissionIsGateDecision(effectDigest: string)
      ensures IsGateDecision(Evaluate(PermissionInputFor(effectDigest, support.policy)))
    {
      hide PermissionInputFor;
    }

    /** The ledger has just recorded that every gate allowed this effect for the current subject. */
    ghost predicate HoldsClearance(l: Ledger, c: Clearance)
      reads l
    {
      && IsOpen(l) && l.status == Executing && l.currentSubject == c.request.subject
      && IsCleared(support.contracts, l.request, c)
      && l.IsAuthorized(c.PermissionIdText(), c.effectDigest, PermissionGate)
      && (c.IsMutation() ==> l.IsAuthorized(c.WorkflowIdText(), c.effectDigest, WorkflowGate))
    }

    method NotDispatched(l: Ledger, error: PortError, c: Clearance) returns (result: RunResult)
      requires HoldsClearance(l, c)
      modifies l
      ensures IsRefusal(result) <==> !NonBlank(error.message)
      ensures EndsAs(result, Blocked, Fixed(ExecutorNotDispatched))
      ensures Ended(l, result) && |l.events| <= old(|l.events|) + 6
      ensures !IsRefusal(result) ==>
                RecordsDecline(l, old(Mentions(l.events)), old(l.effectResults), c.request, c.effectDigest, PermissionGate, NotDispatchedDecision(error))
      ensures l.charges == old(l.charges) + ErrorCharge(error)
    {
      hide RecordsDecline;
      hide Concluded, CheckRequest, CheckEffectRequest, Interruptions, DecisionIsRecordable, NotDispatchedDecision, EndsAs, EndsFirmly, NonBlank;
      hide IsOpen, HoldsClearance, IsCleared, Mentions, UsageAt;
      ClearanceFacts(l, c);
      if error.usage.Some? {
        var _ := Charge(l, error.usage.value);
      }
      result := DeclineProtectedEffect(l, c.request, c.effectDigest, PermissionGate, NotDispatchedDecision(error));
    }

    method ExecutorDeclined(l: Ledger, observation: Observation, c: Clearance) returns (result: RunResult)
      requires HoldsClearance(l, c)
      modifies l
      ensures EndsBy(result, Blocking(ExecutorDecline(observation)))
      ensures Ended(l, result) && !IsRefusal(result)
      ensures |l.events| <= old(|l.events|) + 6
      ensures RecordsDecline(l, old(Mentions(l.events)), old(l.effectResults), c.request, c.effectDigest, PermissionGate, ExecutorDecline(observation))
      ensures l.charges == old(l.charges) + [observation.usage]
    {
      hide RecordsDecline;
      hide Concluded, CheckRequest, CheckEffectRequest, Interruptions, DecisionIsRecordable, ExecutorDecline, EndsAs, EndsFirmly;
      hide IsOpen, HoldsClearance, IsCleared, Mentions, UsageAt;
      ClearanceFacts(l, c);
      var decision := ExecutorDecline(observation);
      var _ := Charge(l, observation.usage);
      result := DeclineProtectedEffect(l, c.request, c.effectDigest, PermissionGate, decision);
    }

    /** Records that a cleared effect was handed to the executor. */
    method RecordExecution(l: Ledger, c: Clearance, result: EffectResult)
      requires HoldsClearance(l, c) && IsDigest(result.digest)
      modifies l`events, l`replay
      ensures IsOpen(l) && l.events == old(l.events) +
              [ToolExecutionEvent(old(|l.events|) + 1, c.PermissionIdText(), c.effectDigest, c.request.capability.digest, result)]
      ensures Mentions(l.events) == old(Mentions(l.events)) +
              [ToolExecutionEvent(old(|l.events|) + 1, c.PermissionIdText(), c.effectDigest, c.request.capability.digest, result)]
    {
      hide CheckRequest, CheckEffectRequest, IsDigest, Interruptions, Ledger.SoundAt, Hashes.WellFormed, DecisionId, Mentions, ResultLocator;
      AdmittedCapability(l, c);
      l.RecordToolExecution(c.PermissionIdText(), c.effectDigest, c.request.capability.digest, result);
    }

    /** The call of the executor ended in an error that leaves its outcome open. */
    method LostResponse(l: Ledger, error: PortError, c: Clearance) returns (result: RunResult)
      requires HoldsClearance(l, c)
      modifies l
      ensures IsRefusal(result) <==>
              CheckResultBody(support.contracts, l.request, c.request,
                LostResponseBody(support.contracts.hashes, config, c.request, c.request.subject, c.Cited(), error)).Some?
      ensures var reason := ChargeReason(old(l.usage), LostResponseUsage(error), l.request.budget);
              if reason.Some? then EndsAs(result, Blocked, Fixed(reason.value)) else EndsAs(result, Failed, Fixed(EffectOutcomeUnknown))
      ensures Ended(l, result) && |l.events| <= old(|l.events|) + 5
      ensures !IsRefusal(result) ==>
                var body := LostResponseBody(support.contracts.hashes, config, c.request, c.request.subject, c.Cited(), error);
                && Retains(l, old(l.effectResults), c.request, body)
                && Mentions(l.events) == old(Mentions(l.events)) +
                   [ToolExecutionEvent(old(|l.events|) + 1, c.PermissionIdText(), c.effectDigest, c.request.capability.digest, Sealed(body))]
      ensures !IsRefusal(result) ==> l.charges == old(l.charges) + [LostResponseUsage(error)]
    {
      hide VerifyResult, ResultLocator;
      hide Concluded, CheckRequest, CheckEffectRequest, CheckResultBody, LostResponseBody, NonBlank, IsDigest, Interruptions, Ledger.SoundAt;
      hide Hashes.WellFormed, IsCleared, DecisionId, Clearance.Cited, Mentions, UsageAt, IsOpen, HoldsClearance, WithinBudget, CancellationSeen;
      ClearanceFacts(l, c);
      var body := ResultBuilder.LostResponse(support.contracts.hashes, config, c.request, l.currentSubject, c.Cited(), error);
      var sealed := SealResult(support.contracts, l.request, c.request, body);
      if sealed.Failure? {
        RefusalConcludes(l, sealed.error);
        return Failure(ResultRefused(sealed.error));
      }
      HashesAreDigests(body);
      LostBodyUsage(config, c, l.currentSubject, error);
      RecordExecution(l, c, sealed.value);
      var usageReason := Charge(l, body.usage);
      ghost var before := l.effectResults;
      result := EndUnknown(l, sealed.value, usageReason);
      SealedIsRetained(l, before, c.request, body);
    }

    /** Retains the result of an attempt with an unknown outcome and ends the run. */
    method EndUnknown(l: Ledger, attempt: EffectResult, usageReason: Option<Word>) returns (result: RunResult)
      requires IsOpen(l) && l.status != AwaitingAuthority
      modifies l`status, l`events, l`replay, l`effectResults
      ensures Ended(l, result) && !IsRefusal(result)
      ensures if usageReason.Some? then EndsAs(result, Blocked, Fixed(usageReason.value)) else EndsAs(result, Failed, Fixed(EffectOutcomeUnknown))
      ensures |l.events| <= old(|l.events|) + 3 && l.effectResults == old(l.effectResults) + [attempt]
      ensures Mentions(l.events) == old(Mentions(l.events))
    {
      hide Concluded, CheckRequest, Interruptions, Ledger.SoundAt, Hashes.WellFormed, Mentions;
      l.effectResults := l.effectResults + [attempt];
      if usageReason.Some? {
        result := Finish(l, Blocked, Fixed(usageReason.value));
      } else {
        result := Finish(l, Failed, Fixed(EffectOutcomeUnknown));
      }
    }

    lemma LostBodyUsage(config: RuntimeConfig, c: Clearance, subject: Subject, error: PortError)
      ensures LostResponseBody(support.contracts.hashes, config, c.request, subject, c.Cited(), error).usage == LostResponseUsage(error)
    {
    }

    lemma HashesAreDigests(body: ResultBody)
      requires support.contracts.hashes.WellFormed()
      ensures IsDigest(support.contracts.hashes.result(body))
    {
    }

    /** An admitted effect runs under the run's requested capability. */
    lemma AdmittedCapability(l: Ledger, c: Clearance)
      requires HoldsClearance(l, c)
      ensures c.request.capability == l.request.requestedCapability && IsDigest(c.request.capability.digest)
    {
    }

    /** The effect's identity may be accepted: it is the next in sequence and repeats nothing. */
    ghost predicate IsNext(l: Ledger, request: EffectRequest, effectDigest: string)
      reads l`effectsSeen, l`effectIds, l`effectDigests, l`idempotencyKeys, l`accepted
    {
      && l.IdentitiesAgree() && request.effectSequence == l.effectsSeen + 1
      && request.effectId !in l.effectIds && effectDigest !in l.effectDigests && request.idempotencyKey !in l.idempotencyKeys
    }

    /** Records the mutation an attempt made and moves the current subject. */
    method CommitMutation(l: Ledger, step: EffectStep)
      requires IsOpen(l) && l.currentSubject == step.cleared.request.subject && step.Mutates()
      requires l.IsAuthorized(step.cleared.WorkflowIdText(), step.cleared.effectDigest, WorkflowGate)
      requires SubjectIsValid(step.result.body.postSubject.value)
      requires forall e | e in step.result.body.evidence :: EffectEvidenceIsValid(e)
      requires |l.events| == step.cleared.ExecutionSequence()
      modifies l`currentSubject, l`events, l`replay
      ensures IsOpen(l) && l.currentSubject == step.SubjectAfter()
      ensures l.events == old(l.events) + [step.MutationEvent(l.hashes)]
      ensures Mentions(l.events) == old(Mentions(l.events)) + [step.MutationEvent(l.hashes)]
    {
      hide CheckRequest, NonBlank, Interruptions, Mentions, DecisionId, EffectEvidenceIsValid, Ledger.SoundAt, SubjectIsValid;
      hide Ledger.IsAuthorized, ArtifactReference;
      var after := step.result.body.postSubject.value;
      l.RecordMutation(step.cleared.WorkflowIdText(), step.cleared.effectDigest, after, step.result.body.evidence);
      l.currentSubject := after;
    }

    /** Records an attempted effect: its identity, its execution and the mutation it made. */
    method CommitAttempt(l: Ledger, step: EffectStep)
      requires HoldsClearance(l, step.cleared) && IsNext(l, step.cleared.request, step.cleared.effectDigest)
      requires AttemptIsRecordable(l.request, step.cleared.request, step.result.body) && IsDigest(step.result.digest)
      requires |l.events| + 1 == step.cleared.ExecutionSequence()
      modifies l`currentSubject, l`effectsSeen, l`effectIds, l`effectDigests, l`idempotencyKeys, l`mutationRequired, l`accepted, l`events, l`replay
      ensures IsOpen(l) && l.IdentitiesAgree() && l.currentSubject == step.SubjectAfter()
      ensures l.accepted == old(l.accepted) + [step.cleared.request]
      ensures l.mutationRequired == (old(l.mutationRequired) || step.cleared.IsMutation())
      ensures l.events == old(l.events) + step.AttemptEvents(l.hashes)
      ensures Mentions(l.events) == old(Mentions(l.events)) + step.AttemptEvents(l.hashes)
    {
      hide CheckRequest, CheckEffectRequest, NonBlank, IsDigest, Interruptions, Mentions, DecisionId, EffectEvidenceIsValid, IdentityIsValid;
      hide Ledger.SoundAt, Ledger.IdentitiesAgree, SubjectIsValid, ArtifactReference, ResultLocator, EffectStep.MutationEvent;
      var c := step.cleared;
      AdmittedCapability(l, c);
      l.AcceptEffectIdentity(c.request, c.effectDigest);
      l.RecordToolExecution(c.PermissionIdText(), c.effectDigest, c.request.capability.digest, step.result);
      if step.result.body.postSubject.Some? && c.request.effectClass.MutationEffect? {
        CommitMutation(l, step);
      }
    }

    /** Seals the body of an attempt the ledger holds a clearance for. */
    method SealAttempt(l: Ledger, c: Clearance, body: ResultBody) returns (sealed: Result<EffectStep, ErrorCode>)
      requires HoldsClearance(l, c) && body.status.IsAttempt() && body.cited == c.Cited()
      ensures sealed.Success? <==> CheckResultBody(support.contracts, l.request, c.request, body).None?
      ensures sealed.Success? ==>
                && sealed.value == EffectStep(c, EffectResult(support.contracts.hashes.result(body), body))
                && IsDigest(sealed.value.result.digest)
                && AttemptIsRecordable(l.request, c.request, body)
                && VerifyResult(support.contracts, l.request, c.request, sealed.value.result)
    {
      hide CheckResultBody, CheckRequest, CheckEffectRequest, IsDigest, AttemptIsRecordable, Ledger.SoundAt, Interruptions;
      var result := SealResult(support.contracts, l.request, c.request, body);
      if result.Failure? {
        return Failure(result.error);
      }
      SealedAttemptIsRecordable(support.contracts, l.request, c.request, body);
      sealed := Success(EffectStep(c, result.value));
    }

    /** An attempt by an executor or in a sandbox that is not the configured one: an unknown outcome. */
    method UntrustedExecution(l: Ledger, observation: Observation, c: Clearance, distrust: Word) returns (result: RunResult)
      requires HoldsClearance(l, c) && IsNext(l, c.request, c.effectDigest) && |l.events| + 1 == c.ExecutionSequence()
      modifies l
      ensures IsRefusal(result) <==>
              CheckResultBody(support.contracts, l.request, c.request,
                UntrustedBody(support.contracts.hashes, c.request, c.request.subject, c.Cited(), observation, distrust)).Some?
      ensures EndsAs(result, Failed, Fixed(distrust))
      ensures Ended(l, result) && |l.events| <= old(|l.events|) + 6
      ensures !IsRefusal(result) ==>
                var body := UntrustedBody(support.contracts.hashes, c.request, c.request.subject, c.Cited(), observation, distrust);
                && Retains(l, old(l.effectResults), c.request, body)
                && Mentions(l.events) == old(Mentions(l.events)) + EffectStep(c, Sealed(body)).AttemptEvents(l.hashes)
      ensures !IsRefusal(result) ==> l.charges == old(l.charges) + [Cap(observation.usage)]
    {
      hide Concluded, CheckRequest, CheckEffectRequest, CheckResultBody, UntrustedBody, IsDigest, AttemptIsRecordable, Interruptions, Ledger.SoundAt;
      hide EffectStep.AttemptEvents, Ledger.IsAuthorized, UntrustedEvidence, IsOpen, HoldsClearance, IsNext, IsCleared, Ledger.IdentitiesAgree;
      hide VerifyResult, Mentions, Clearance.Cited;
      ClearanceFacts(l, c);
      var body := ResultBuilder.Untrusted(support.contracts.hashes, c.request, l.currentSubject, c.Cited(), observation, distrust);
      UntrustedBodyIsAttempt(support.contracts.hashes, c.request, l.currentSubject, c.Cited(), observation, distrust);
      var sealed := SealAttempt(l, c, body);
      if sealed.Failure? {
        RefusalConcludes(l, sealed.error);
        return Failure(ResultRefused(sealed.error));
      }
      var _ := RecordAttempt(l, sealed.value);
      result := FailAttempt(l, sealed.value.result, distrust);
    }

    /** Retains the result of a distrusted attempt and fails the run. */
    method FailAttempt(l: Ledger, attempt: EffectResult, why: Word) returns (result: RunResult)
      requires IsOpen(l) && l.status != AwaitingAuthority
      modifies l`status, l`events, l`replay, l`effectResults
      ensures EndsAs(result, Failed, Fixed(why))
      ensures Ended(l, result) && !IsRefusal(result)
      ensures |l.events| <= old(|l.events|) + 3 && l.effectResults == old(l.effectResults) + [attempt]
      ensures Mentions(l.events) == old(Mentions(l.events))
    {
      hide Concluded, CheckRequest, Interruptions, Ledger.SoundAt, Hashes.WellFormed, Mentions;
      l.effectResults := l.effectResults + [attempt];
      result := Finish(l, Failed, Fixed(why));
    }

    lemma UntrustedBodyIsAttempt(hashes: Hashes, request: EffectRequest, subject: Subject, cited: CitedDecision, observation: Observation, distrust: Word)
      ensures var body := UntrustedBody(hashes, request, subject, cited, observation, distrust);
              body.status.UnknownOutcome? && body.cited == cited && body.usage == Cap(observation.usage)
    {
      hide UntrustedEvidence, ReportedExecutor, UsablePostSubject;
    }

    lemma AttemptEventsAreFew(step: EffectStep, hashes: Hashes)
      ensures 1 <= |step.AttemptEvents(hashes)| <= 2
    {
    }

    /** The part of a ledger's state that an executed effect changes. */
    ghost function ViewOf(l: Ledger): LedgerView
      reads l
    {
      LedgerView(|l.events|, Mentions(l.events), l.accepted, l.effectResults, l.charges, l.usage, l.mutationRequired, l.mutationAuthorized)
    }

    /** The run goes on after `step`, whose gate decisions the ledger `before` already held. */
    ghost predicate Continues(l: Ledger, before: LedgerView, step: EffectStep)
      reads l
    {
      && IsOpen(l) && l.status == Executing && l.IdentitiesAgree() && l.currentSubject == step.SubjectAfter()
      && StepSucceeded(support.contracts, l.request, step)
      && |l.events| <= before.count + 3
      && Mentions(l.events) == before.mentions + step.AttemptEvents(l.hashes)
      && l.accepted == before.accepted + [step.cleared.request]
      && l.effectResults == before.results + [step.result]
      && l.charges == before.charges + [step.result.body.usage]
      && l.usage == Plus(before.usage, step.result.body.usage) && UsageIsSafe(l.usage) && WithinBudget(l.usage, l.request.budget)
      && l.mutationRequired == (before.mutationRequired || step.cleared.IsMutation())
      && l.mutationAuthorized == before.mutationAuthorized
    }

    /** Records an attempt and charges what it used. */
    method RecordAttempt(l: Ledger, step: EffectStep) returns (usageReason: Option<Word>)
      requires HoldsClearance(l, step.cleared) && IsNext(l, step.cleared.request, step.cleared.effectDigest)
      requires AttemptIsRecordable(l.request, step.cleared.request, step.result.body) && IsDigest(step.result.digest)
      requires |l.events| + 1 == step.cleared.ExecutionSequence()
      modifies l`currentSubject, l`effectsSeen, l`effectIds, l`effectDigests, l`idempotencyKeys, l`mutationRequired, l`accepted
      modifies l`events, l`replay, l`usage, l`charges
      ensures IsOpen(l) && l.IdentitiesAgree() && l.currentSubject == step.SubjectAfter()
      ensures l.accepted == old(l.accepted) + [step.cleared.request]
      ensures l.mutationRequired == (old(l.mutationRequired) || step.cleared.IsMutation())
      ensures Mentions(l.events) == old(Mentions(l.events)) + step.AttemptEvents(l.hashes) && |l.events| <= old(|l.events|) + 3
      ensures l.charges == old(l.charges) + [step.result.body.usage]
      ensures usageReason == ChargeReason(old(l.usage), step.result.body.usage, l.request.budget)
      ensures usageReason.None? ==> l.usage == Plus(old(l.usage), step.result.body.usage)
    {
      hide IsOpen, HoldsClearance, IsNext, AttemptIsRecordable, EffectStep.AttemptEvents, EffectStep.SubjectAfter, Mentions, UsageAt, Ledger.IsAuthorized;
      hide Ledger.IdentitiesAgree, IsDigest, WithinBudget;
      AttemptEventsAreFew(step, l.hashes);
      CommitAttempt(l, step);
      usageReason := Charge(l, step.result.body.usage);
    }

    function AttemptStep(c: Clearance, observation: Observation): EffectStep {
      var body := AttemptBody(config, c.request, c.request.subject, c.Cited(), observation);
      EffectStep(c, EffectResult(support.contracts.hashes.result(body), body))
    }

    /** Retains the result of a recorded attempt; the run goes on when it returns `None`. */
    method ConcludeAttempt(l: Ledger, result: EffectResult, ghost effect: EffectRequest, usageReason: Option<Word>) returns (end: Option<RunResult>)
      requires IsOpen(l) && l.status == Executing && AttemptIsRecordable(l.request, effect, result.body)
      modifies l`status, l`events, l`replay, l`effectResults
      ensures l.effectResults == old(l.effectResults) + [result] && Mentions(l.events) == old(Mentions(l.events))
      ensures end.None? <==> result.body.status.Executed? && usageReason.None?
      ensures end.Some? ==>
                match AttemptEnding(result.body.status)
                case None => EndsAs(end.value, Blocked, Fixed(usageReason.value))
                case Some((status, why)) => EndsBy(end.value, Ending(status, Fixed(why), status.Interrupted?))
      ensures end.None? ==> IsOpen(l) && l.events == old(l.events) && l.replay == old(l.replay) && l.status == old(l.status)
      ensures end.Some? ==> Ended(l, end.value) && !IsRefusal(end.value) && |l.events| <= old(|l.events|) + 4
      ensures result.body.status.EffectInterrupted? ==>
                |l.events| > old(|l.events|) && l.events[old(|l.events|)] == EffectInterruption(l.hashes, old(|l.events|) + 1, result)
    {
      hide Concluded, CheckRequest, IsDigest, Interruptions, Ledger.SoundAt, EffectEvidenceIsValid, IdentityIsValid, SubjectIsValid, Mentions;
      var ending: Option<(RunStatus, Word)> := None;
      match result.body.status {
        case Executed =>
        case AuthorityAwaited => ending := Some((Blocked, EffectAwaitsAuthority));
        case Denied => ending := Some((Blocked, EffectWasDenied));
        case EffectFailed => ending := Some((RunStatus.Failed, EffectHasFailed));
        case EffectInterrupted =>
          l.RecordEffectInterruption(result);
          ending := Some((Interrupted, EffectWasInterrupted));
        case UnknownOutcome => ending := Some((RunStatus.Failed, EffectOutcomeUnknown));
      }
      if ending.None? && usageReason.Some? {
        ending := Some((Blocked, usageReason.value));
      }
      l.effectResults := l.effectResults + [result];
      if ending.None? {
        return None;
      }
      var finished := Finish(l, ending.value.0, Fixed(ending.value.1));
      end := Some(finished);
    }

    /** Adds one port's usage to an open run. */
    method Charge(l: Ledger, u: Usage) returns (reason: Option<Word>)
      requires IsOpen(l)
      modifies l`usage, l`events, l`replay, l`charges
      ensures IsOpen(l)
      ensures l.charges == old(l.charges) + [u] && l.replay == old(l.replay).(usage := Some(l.usage))
      ensures reason == ChargeReason(old(l.usage), u, l.request.budget)
      ensures reason.None? ==> l.usage == Plus(old(l.usage), u)
      ensures Mentions(l.events) == old(Mentions(l.events)) && old(|l.events|) <= |l.events| <= old(|l.events|) + 1
      ensures l.events ==
              if old(UsageAt(l.events, |l.events|)) == Some(l.usage) then old(l.events)
              else old(l.events) + [UsageRecorded(old(|l.events|) + 1, l.usage)]
      ensures forall id, digest, gate | old(l.IsAuthorized(id, digest, gate)) :: l.IsAuthorized(id, digest, gate)
    {
      hide CheckRequest, Interruptions, Ledger.SoundAt, Mentions, Hashes.WellFormed, NonBlank, IsDigest;
      reason := l.RecordUsage(u);
    }

    lemma ClearanceFacts(l: Ledger, c: Clearance)
      requires HoldsClearance(l, c)
      ensures l.currentSubject == c.request.subject && l.status == Executing && IsOpen(l) && IsCleared(support.contracts, l.request, c)
      ensures c.gates.runtime.outcome.Allow? && IsAdmitted(l, c.request, c.effectDigest)
    {
    }

    /** An attempt by the configured executor in the requested sandbox. The run goes on when it returns `None`. */
    method TrustedExecution(l: Ledger, observation: Observation, c: Clearance) returns (result: Option<RunResult>)
      requires HoldsClearance(l, c) && IsNext(l, c.request, c.effectDigest) && |l.events| + 1 == c.ExecutionSequence()
      requires observation.status.IsAttempt() && observation.usage.toolCalls >= 1
      modifies l
      ensures result.Some? && IsRefusal(result.value) <==>
              CheckResultBody(support.contracts, l.request, c.request, AttemptStep(c, observation).result.body).Some?
      ensures result.Some? ==> Ended(l, result.value) && |l.events| <= old(|l.events|) + 7
      ensures result.None? ==> Continues(l, old(ViewOf(l)), AttemptStep(c, observation))
      ensures !(result.Some? && IsRefusal(result.value)) ==>
                && Retains(l, old(l.effectResults), c.request, AttemptStep(c, observation).result.body)
                && Mentions(l.events) == old(Mentions(l.events)) + AttemptStep(c, observation).AttemptEvents(l.hashes)
      ensures Meets(result, TrustedEnding(old(l.usage), observation, l.request.budget))
      ensures !(result.Some? && IsRefusal(result.value)) ==> l.charges == old(l.charges) + [observation.usage]
    {
      hide EndsAs, EndsFirmly, UsageAt, WithinBudget;
      hide Concluded, CheckRequest, CheckEffectRequest, CheckResultBody, IsDigest, Interruptions, Ledger.SoundAt, AttemptIsRecordable, Mentions;
      hide EffectStep.AttemptEvents, Ledger.IsAuthorized, VerifyResult, EffectStep.SubjectAfter, Clearance.Cited, Ledger.IdentitiesAgree, AttemptBody;
      hide IsOpen, HoldsClearance, IsNext, IsCleared, StepSucceeded;
      ClearanceFacts(l, c);
      var body := ResultBuilder.Attempt(config, c.request, l.currentSubject, c.Cited(), observation);
      AttemptBodyFields(c, observation);
      var sealed := SealAttempt(l, c, body);
      if sealed.Failure? {
        RefusalConcludes(l, sealed.error);
        return Some(Failure(ResultRefused(sealed.error)));
      }
      var step := sealed.value;
      SealedStepSucceeds(l, step, observation);
      var usageReason := RecordAttempt(l, step);
      result := ConcludeAttempt(l, step.result, c.request, usageReason);
    }

    lemma SealedStepSucceeds(l: Ledger, step: EffectStep, observation: Observation)
      requires step == AttemptStep(step.cleared, observation) && observation.usage.toolCalls >= 1
      requires IsCleared(support.contracts, l.request, step.cleared)
      requires VerifyResult(support.contracts, l.request, step.cleared.request, step.result)
      ensures observation.status.Executed? ==> StepSucceeded(support.contracts, l.request, step)
    {
      hide IsCleared, VerifyResult;
      AttemptBodyFields(step.cleared, observation);
    }

    lemma AttemptBodyFields(c: Clearance, observation: Observation)
      ensures var body := AttemptBody(config, c.request, c.request.subject, c.Cited(), observation);
              body.status == observation.status && body.usage == observation.usage && body.cited == c.Cited()
    {
    }

    /** The body an attempted effect's counted observation is sealed with. */
    function ObservedBody(c: Clearance, counted: Observation): ResultBody {
      var distrust := DistrustReason(config, c.request, counted);
      if distrust.Some? then UntrustedBody(support.contracts.hashes, c.request, c.request.subject, c.Cited(), counted, distrust.value)
      else AttemptBody(config, c.request, c.request.subject, c.Cited(), counted)
    }

    /** Whether the result of the executor's reply seals. */
    ghost predicate ReplySeals(run: AgentRunRequest, c: Clearance, reply: Result<Observation, PortError>) {
      match reply
      case Failure(e) =>
        if e.notDispatched then NonBlank(e.message)
        else CheckResultBody(support.contracts, run, c.request,
               LostResponseBody(support.contracts.hashes, config, c.request, c.request.subject, c.Cited(), e)).None?
      case Success(o) =>
        o.status.IsAttempt() ==>
          CheckResultBody(support.contracts, run, c.request,
            ObservedBody(c, CountAttempt(support.contracts.hashes, c.effectDigest, o))).None?
    }

    /** The reply of a cleared effect fits when it shows what its own kind of answer must. */
    predicate Fits(request: EffectRequest, reply: Result<Observation, PortError>) {
      ReplyFits(config, support.contracts.hashes, request, reply)
    }

    /** Exactly which replies can be retained: those that fit. */
    lemma ReplySealsExactly(run: AgentRunRequest, c: Clearance, reply: Result<Observation, PortError>)
      requires support.contracts.hashes.WellFormed() && IsCleared(support.contracts, run, c) && IdentityIsValid(config.executor)
      ensures ReplySeals(run, c, reply) <==> Fits(c.request, reply)
    {
      hide CheckResultBody, CheckEffectRequest, LostResponseBody, UntrustedBody, AttemptBody, NonBlank, CountAttempt, IdentityIsValid;
      hide CitesPermission, Clearance.Cited, ObservationFits, LostResponseFits, DistrustedFits;
      ClearanceCites(support.contracts, run, c);
      match reply
      case Failure(e) => LostResponseSealsExactly(support.contracts, config, run, c.request, c.Cited(), e);
      case Success(o) =>
        if o.status.IsAttempt() {
          var counted := CountAttempt(support.contracts.hashes, c.effectDigest, o);
          var distrust := DistrustReason(config, c.request, counted);
          if distrust.Some? {
            UntrustedSealsExactly(support.contracts, run, c.request, c.Cited(), counted, distrust.value);
          } else {
            AttemptSealsExactly(support.contracts, config, run, c.request, c.Cited(), counted);
          }
        }
    }

    /** The step that a continuing run takes on this reply. */
    function StepOf(c: Clearance, reply: Result<Observation, PortError>): (step: EffectStep)
      requires reply.Success?
      ensures step.cleared == c
    {
      AttemptStep(c, CountAttempt(support.contracts.hashes, c.effectDigest, reply.value))
    }

    /** The executor answered with an error. */
    method HandleError(l: Ledger, error: PortError, c: Clearance) returns (result: RunResult)
      requires HoldsClearance(l, c) && IdentityIsValid(config.executor)
      modifies l
      ensures IsRefusal(result) <==> !Fits(c.request, Failure(error))
      ensures Ended(l, result) && |l.events| <= old(|l.events|) + 7
      ensures Meets(Some(result), ExecutionEnding(SettingOf(l.request), old(l.usage), c.request, Failure(error)))
      ensures !IsRefusal(result) ==> RetainsOne(l, old(l.effectResults), c.request)
      ensures !IsRefusal(result) ==> l.charges == old(l.charges) + ExecutionCharge(SettingOf(l.request), c.request, Failure(error))
    {
      hide Concluded, CheckResultBody, HoldsClearance, LostResponseBody, Mentions, NonBlank, Retains, RetainsOne, RecordsDecline, EndsAs, EndsFirmly;
      hide Fits, IsCleared, IsOpen;
      ghost var before, mentions := l.effectResults, Mentions(l.events);
      ClearanceFacts(l, c);
      OpenFacts(l);
      ReplySealsExactly(l.request, c, Failure(error));
      if error.notDispatched {
        result := NotDispatched(l, error, c);
        if !IsRefusal(result) {
          DeclineRetainsOne(l, mentions, before, c.request, c.effectDigest, PermissionGate, NotDispatchedDecision(error));
        }
      } else {
        result := LostResponse(l, error, c);
        if !IsRefusal(result) {
          RetainedIsOne(l, before, c.request, LostResponseBody(support.contracts.hashes, config, c.request, c.request.subject, c.Cited(), error));
        }
      }
    }

    /** The executor answered that it attempted the effect. */
    method HandleAttempt(l: Ledger, observation: Observation, c: Clearance) returns (result: Option<RunResult>)
      requires HoldsClearance(l, c) && IsNext(l, c.request, c.effectDigest) && |l.events| + 1 == c.ExecutionSequence()
      requires observation.status.IsAttempt() && IdentityIsValid(config.executor)
      modifies l
      ensures result.Some? && IsRefusal(result.value) <==> !Fits(c.request, Success(observation))
      ensures result.Some? ==> Ended(l, result.value) && |l.events| <= old(|l.events|) + 7
      ensures result.None? ==> Continues(l, old(ViewOf(l)), StepOf(c, Success(observation)))
      ensures Meets(result, ExecutionEnding(SettingOf(l.request), old(l.usage), c.request, Success(observation)))
      ensures !(result.Some? && IsRefusal(result.value)) ==> RetainsOne(l, old(l.effectResults), c.request)
      ensures !(result.Some? && IsRefusal(result.value)) ==>
                l.charges == old(l.charges) + ExecutionCharge(SettingOf(l.request), c.request, Success(observation))
    {
      hide Concluded, CheckResultBody, HoldsClearance, IsNext, AttemptBody, UntrustedBody, CountAttempt, Continues, Mentions, Retains, RetainsOne;
      hide EndsAs, EndsFirmly, TrustedEnding, EffectStep.AttemptEvents;
      hide Fits, IsCleared, IsOpen;
      ClearedDigest(l, c);
      ClearanceFacts(l, c);
      OpenFacts(l);
      ReplySealsExactly(l.request, c, Success(observation));
      ghost var before := l.effectResults;
      var counted := ResultBuilder.Counted(support.contracts.hashes, c.effectDigest, observation);
      var distrust := ResultBuilder.Distrust(config, c.request, counted);
      if distrust.Some? {
        var ended := UntrustedExecution(l, counted, c, distrust.value);
        if !IsRefusal(ended) {
          RetainedIsOne(l, before, c.request, UntrustedBody(support.contracts.hashes, c.request, c.request.subject, c.Cited(), counted, distrust.value));
        }
        return Some(ended);
      }
      result := TrustedExecution(l, counted, c);
      if !(result.Some? && IsRefusal(result.value)) {
        RetainedIsOne(l, before, c.request, AttemptStep(c, counted).result.body);
      }
    }

    lemma ClearedDigest(l: Ledger, c: Clearance)
      requires HoldsClearance(l, c)
      ensures c.effectDigest == support.contracts.hashes.effect(c.request)
    {
    }

    /** Calls the executor once and records what came of it. */
    method ExecuteEffect(l: Ledger, c: Clearance) returns (result: Option<RunResult>)
      requires HoldsClearance(l, c) && IsNext(l, c.request, c.effectDigest) && |l.events| + 1 == c.ExecutionSequence()
      requires IdentityIsValid(config.executor)
      modifies l, this`executions, this`dispatched
      ensures executions == old(executions) + 1 && dispatched == old(dispatched) + [Dispatch(c, old(l.usage), old(l.events))]
      ensures result.Some? && IsRefusal(result.value) <==>
              !Fits(c.request, script.executions(old(executions)))
      ensures result.Some? ==> Ended(l, result.value) && |l.events| <= old(|l.events|) + 7
      ensures result.None? ==>
                && script.executions(old(executions)).Success?
                && Continues(l, old(ViewOf(l)), StepOf(c, script.executions(old(executions))))
      ensures Meets(result, ExecutionEnding(SettingOf(l.request), old(l.usage), c.request, script.executions(old(executions))))
      ensures !(result.Some? && IsRefusal(result.value)) ==> RetainsOne(l, old(l.effectResults), c.request)
      ensures !(result.Some? && IsRefusal(result.value)) ==>
                l.charges == old(l.charges) + ExecutionCharge(SettingOf(l.request), c.request, script.executions(old(executions)))
    {
      hide Concluded, CheckResultBody, HoldsClearance, IsNext, StepOf, CountAttempt, DistrustReason, ObservedBody, Continues, Mentions, RetainsOne;
      hide RecordsDecline, EndsAs, EndsFirmly, TrustedEnding, ChargeEnding;
      var reply := script.executions(executions);
      dispatched := dispatched + [Dispatch(c, l.usage, l.events)];
      executions := executions + 1;
      if reply.Failure? {
        var ended := HandleError(l, reply.error, c);
        return Some(ended);
      }
      var observation := reply.value;
      if !observation.status.IsAttempt() {
        ghost var before, mentions := l.effectResults, Mentions(l.events);
        var ended := ExecutorDeclined(l, observation, c);
        DeclineRetainsOne(l, mentions, before, c.request, c.effectDigest, PermissionGate, ExecutorDecline(observation));
        return Some(ended);
      }
      result := HandleAttempt(l, observation, c);
    }

    /** The identity sets admit exactly what the accepted effects allow. */
    lemma IdentityDecides(l: Ledger, request: EffectRequest, effectDigest: string)
      requires l.IdentitiesAgree() && effectDigest == l.hashes.effect(request)
      ensures var decision := l.AdmissionDecision(request, effectDigest, config.maxEffects);
              if request.effectSequence != |l.accepted| + 1 then decision.Some? && decision.value.code == Fixed(EffectSequenceInvalid)
              else if |l.accepted| >= config.maxEffects then decision.Some? && decision.value.code == Fixed(MaxEffectsExhausted)
              else if Repeats(l.hashes, l.accepted, request) then decision.Some? && decision.value.code == Fixed(DuplicateEffect)
              else decision.None?
    {
      hide AreDistinctEffects;
    }

    /** The checks before the gates: a valid request for the current subject, in sequence, new and affordable. */
    method AdmitEffect(l: Ledger, request: EffectRequest) returns (refused: Option<RunResult>, effectDigest: string)
      requires IsOpen(l) && l.status == Executing && l.IdentitiesAgree()
      modifies l`status, l`events, l`replay, l`mutationAuthorized, l`effectResults
      ensures refused.Some? ==> Ended(l, refused.value) && !IsRefusal(refused.value)
      ensures refused.Some? ==> |l.events| <= old(|l.events|) + 5
      ensures refused.None? ==>
                && l.events == old(l.events) && l.status == Executing && IsOpen(l)
                && ViewOf(l) == old(ViewOf(l)) && l.currentSubject == request.subject
                && IsAdmitted(l, request, effectDigest) && IsNext(l, request, effectDigest) && request.effectSequence <= config.maxEffects
                && BudgetAdmission(l.usage, l.request.budget, support.estimate).None?
      ensures Meets(refused, AdmissionEnding(SettingOf(l.request), l.usage, old(l.currentSubject), l.accepted, request))
      ensures refused.Some? ==> l.effectResults == old(l.effectResults) || RetainsOne(l, old(l.effectResults), request)
    {
      hide Concluded, CheckRequest, CheckEffectRequest, BudgetAdmission, Interruptions, Mentions, Ledger.SoundAt, Ledger.IdentitiesAgree, EffectIsSound;
      hide Ledger.AdmissionDecision, DecisionIsRecordable, EndsAs, EndsFirmly, Repeats;
      hide Retains, RetainsOne, RecordsDecline;
      ghost var before, mentions := l.effectResults, Mentions(l.events);
      var result: RunResult;
      var admitted := ValidateEffectRequest(support.contracts, l.request, request);
      if admitted.Failure? {
        result := Finish(l, Failed, Fixed(InvalidEffectRequest));
        return Some(result), "";
      }
      effectDigest := admitted.value;
      if request.subject != l.currentSubject {
        result := DeclineProtectedEffect(l, request, effectDigest, PermissionGate, Decide(Block, StaleSubject, [StopAction]));
        DeclineRetainsOne(l, mentions, before, request, effectDigest, PermissionGate, Decide(Block, StaleSubject, [StopAction]));
        return Some(result), effectDigest;
      }
      IdentityDecides(l, request, effectDigest);
      var admission := l.AdmissionDecision(request, effectDigest, config.maxEffects);
      if admission.Some? {
        result := DeclineProtectedEffect(l, request, effectDigest, RuntimeGate, admission.value);
        DeclineRetainsOne(l, mentions, before, request, effectDigest, RuntimeGate, admission.value);
        return Some(result), effectDigest;
      }
      var budget := BudgetAdmission(l.usage, l.request.budget, support.estimate);
      if budget.Some? {
        result := DeclineProtectedEffect(l, request, effectDigest, RuntimeGate, budget.value);
        DeclineRetainsOne(l, mentions, before, request, effectDigest, RuntimeGate, budget.value);
        return Some(result), effectDigest;
      }
      refused := None;
    }

    lemma NextIsDistinct(l: Ledger, request: EffectRequest, effectDigest: string)
      requires IsNext(l, request, effectDigest) && effectDigest == l.hashes.effect(request)
      ensures AreDistinctEffects(l.hashes, l.accepted + [request]) && |l.accepted| + 1 == request.effectSequence
    {
      hide AreDistinctEffects;
      forall e | e in l.accepted
        ensures e.effectId != request.effectId && l.hashes.effect(e) != l.hashes.effect(request) && e.idempotencyKey != request.idempotencyKey
      {
        assert e.effectId in l.effectIds;
        assert l.hashes.effect(e) in l.effectDigests;
        assert e.idempotencyKey in l.idempotencyKeys;
      }
      DistinctEffectsGrow(l.hashes, l.accepted, request);
    }

    /** The ledger of a run in progress: `steps` have been executed and nothing else names an effect. */
    ghost predicate LedgerRuns(l: Ledger, steps: seq<EffectStep>)
      reads l
    {
      && IsOpen(l) && l.status == Executing && l.IdentitiesAgree()
      && l.accepted == Requests(steps) && l.effectResults == Results(steps)
      && Traced(support.contracts, l.request, l.events, steps, l.currentSubject)
      && UsageIsSafe(l.usage) && WithinBudget(l.usage, l.request.budget) && l.usage == Total(l.charges)
      && (l.mutationRequired ==> l.mutationAuthorized)
    }

    /** Every reply the executor gave fits, and so can be retained. */
    ghost predicate AllRepliesFit()
      reads this`dispatched
    {
      forall i | 0 <= i < |dispatched| :: Fits(dispatched[i].cleared.request, script.executions(i))
    }

    /** Every executor call was for what the agent had just proposed. */
    ghost predicate CallsAreProposed()
      reads this`dispatched
    {
      forall i | 0 <= i < |dispatched| ::
        script.steps(i).Success? && script.steps(i).value.value == ProposeEffect(dispatched[i].cleared.request)
    }

    /** The executor was called once for each step, and each step is what its reply said. */
    ghost predicate RepliesAre(steps: seq<EffectStep>)
      reads this`executions, this`dispatched
    {
      executions == |steps| && DispatchedRequests(dispatched) == Requests(steps) && TookReplies(steps)
    }

    /** Each step is what the executor's reply said. */
    ghost predicate TookReplies(steps: seq<EffectStep>) {
      forall i | 0 <= i < |steps| :: script.executions(i).Success? && steps[i] == StepOf(steps[i].cleared, script.executions(i))
    }

    lemma LedgerRunsOn(l: Ledger, before: LedgerView, events: seq<RunEvent>, subject: Subject, steps: seq<EffectStep>, step: EffectStep)
      requires support.contracts.hashes.WellFormed() && l.hashes == support.contracts.hashes
      requires before.accepted == Requests(steps) && before.results == Results(steps)
      requires Traced(support.contracts, l.request, events, steps, subject) && step.cleared.request.subject == subject
      requires before.mentions == Mentions(events) + step.cleared.GateEvents()
      requires before.usage == Total(before.charges)
      requires before.mutationRequired || step.cleared.IsMutation() ==> before.mutationAuthorized
      requires Continues(l, before, step)
      ensures LedgerRuns(l, steps + [step])
      ensures |l.events| <= before.count + 3 && l.charges == before.charges + [step.result.body.usage]
    {
      hide Mentions, StepSucceeded, Ledger.SoundAt, CheckRequest, Interruptions, Hashes.WellFormed, StepsChain, Blocks, AreDistinctEffects;
      hide EffectStep.AttemptEvents, Clearance.GateEvents, EffectStep.SubjectAfter, Traced, Requests, Results;
      TotalGrows(before.charges, step.result.body.usage);
      RequestsGrow(steps, step);
      assert AreDistinctEffects(l.hashes, l.accepted);
      assert Mentions(l.events) == Mentions(events) + step.Events(l.hashes);
      TracedGrows(support.contracts, l.request, events, steps, subject, l.events, step);
    }

    /** Admits a proposal and passes it through the gates; what it returns may be dispatched. */
    method ClearEffect(l: Ledger, request: EffectRequest) returns (refused: Option<RunResult>, cleared: Clearance)
      requires IsOpen(l) && l.status == Executing && l.IdentitiesAgree()
      modifies l`status, l`events, l`replay, l`mutationAuthorized, l`effectResults
      ensures refused.Some? ==> Ended(l, refused.value) && !IsRefusal(refused.value)
      ensures refused.Some? ==> |l.events| <= old(|l.events|) + 8
      ensures refused.None? ==>
                && HoldsClearance(l, cleared) && IsNext(l, cleared.request, cleared.effectDigest)
                && cleared.request == request && l.currentSubject == request.subject && |l.events| + 1 == cleared.ExecutionSequence()
                && |l.accepted| + 1 == request.effectSequence <= config.maxEffects
                && AreDistinctEffects(l.hashes, l.accepted + [request])
                && DispatchIsAuthorized(support, config, l.request, Dispatch(cleared, l.usage, l.events))
                && Mentions(l.events) == old(Mentions(l.events)) + cleared.GateEvents() && |l.events| <= old(|l.events|) + 4
                && l.effectResults == old(l.effectResults) && l.mutationAuthorized == (old(l.mutationAuthorized) || cleared.IsMutation())
      ensures Meets(refused, ClearanceEnding(SettingOf(l.request), l.usage, old(l.currentSubject), l.accepted, request))
      ensures refused.Some? ==> l.effectResults == old(l.effectResults) || RetainsOne(l, old(l.effectResults), request)
    {
      hide RetainsOne, Retains, GateTrail, GateEnding, AdmissionEnding, EndsAs, EndsFirmly;
      hide Concluded, CheckRequest, CheckEffectRequest, IsOpen, IsNext, BudgetAdmission, GatesFor, GatesAllow, Mentions, HoldsClearance, IsCleared;
      hide IsPermitted, DispatchIsAuthorized, AreDistinctEffects, Ledger.IdentitiesAgree, IsAffordable, Clearance.GateEvents, Hashes.WellFormed;
      OpenFacts(l);
      ghost var events := l.events;
      var effectDigest;
      refused, effectDigest := AdmitEffect(l, request);
      cleared := Clearance(0, request, effectDigest, NO_GATES);
      if refused.Some? {
        return;
      }
      NextIsDistinct(l, request, effectDigest);
      ghost var before, mentions, start := l.effectResults, Mentions(l.events), |l.events|;
      refused, cleared := PassGates(l, request, effectDigest);
      if refused.Some? {
        RefusalRetainsOne(l, mentions, before, request, GateTrail(start, request, effectDigest, GatesFor(support, config, l.usage.cost, request, effectDigest)));
        return;
      }
      ClearanceFacts(l, cleared);
      AllowedIsAffordable(support, config, l.request, l.usage, request, effectDigest);
      AllowedIsPermitted(support, config, l.usage, request, effectDigest);
      ClearedIsAuthorized(support, config, l.request, cleared, l.usage, events, l.events);
      GateEventCount(cleared);
    }

    /** Each executor call has its result, which the checker accepts for that call's request; a last result without a call
        belongs to a proposal that was refused before it. */
    ghost predicate CallsAreRetained(run: AgentRunRequest, results: seq<EffectResult>, calls: seq<Dispatch>) {
      && |calls| <= |results| <= |calls| + 1
      && forall i | 0 <= i < |calls| :: VerifyResult(support.contracts, run, calls[i].cleared.request, results[i])
    }

    lemma RunningRetainsCalls(l: Ledger, steps: seq<EffectStep>)
      requires LedgerRuns(l, steps) && RepliesAre(steps)
      ensures CallsAreRetained(l.request, l.effectResults, dispatched) && |l.effectResults| == |dispatched|
    {
      hide VerifyResult, IsOpen, StepsChain, AreDistinctEffects, Mentions, Blocks, IsCleared;
      forall i | 0 <= i < |dispatched| ensures VerifyResult(support.contracts, l.request, dispatched[i].cleared.request, l.effectResults[i]) {
        assert DispatchedRequests(dispatched)[i] == Requests(steps)[i];
        assert StepSucceeded(support.contracts, l.request, steps[i]);
      }
    }

    lemma RetentionGrows(l: Ledger, before: seq<EffectResult>, calls: seq<Dispatch>, request: EffectRequest)
      requires CallsAreRetained(l.request, before, calls) && |before| == |calls| && RetainsOne(l, before, request)
      ensures CallsAreRetained(l.request, l.effectResults, calls)
      ensures forall d: Dispatch | d.cleared.request == request :: CallsAreRetained(l.request, l.effectResults, calls + [d])
    {
      hide VerifyResult;
      assert forall i | 0 <= i < |before| :: l.effectResults[i] == before[i];
    }

    /** What clearance and execution each end like is what the effect ends like. */
    lemma EffectMeets(
      run: AgentRunRequest, usage: Usage, subject: Subject, accepted: seq<EffectRequest>, request: EffectRequest,
      clearing: Option<RunResult>, executing: Option<RunResult>)
      requires Meets(clearing, ClearanceEnding(SettingOf(run), usage, subject, accepted, request))
      ensures clearing.Some? && !IsRefusal(clearing.value) ==>
                Meets(clearing, EffectEnding(SettingOf(run), usage, subject, accepted, request))
      ensures clearing.None? && Meets(executing, ExecutionEnding(SettingOf(run), usage, request, script.executions(|accepted|))) ==>
                Meets(executing, EffectEnding(SettingOf(run), usage, subject, accepted, request))
      ensures clearing.Some? && !IsRefusal(clearing.value) ==> EffectCharge(SettingOf(run), usage, subject, accepted, request) == []
      ensures clearing.None? ==> EffectCharge(SettingOf(run), usage, subject, accepted, request) ==
                                 ExecutionCharge(SettingOf(run), request, script.executions(|accepted|))
    {
      hide ClearanceEnding, ExecutionEnding, ExecutionCharge;
    }

    /** The executor is about to be called for `c`: the ledger goes beyond `events`, which account for `steps`, by its gates. */
    ghost predicate AwaitsCall(l: Ledger, c: Clearance, steps: seq<EffectStep>, events: seq<RunEvent>)
      reads l
    {
      && HoldsClearance(l, c) && IsNext(l, c.request, c.effectDigest) && |l.events| + 1 == c.ExecutionSequence()
      && Traced(support.contracts, l.request, events, steps, l.currentSubject)
      && Mentions(l.events) == Mentions(events) + c.GateEvents()
      && l.accepted == Requests(steps) && l.effectResults == Results(steps) && l.usage == Total(l.charges)
      && (l.mutationRequired || c.IsMutation() ==> l.mutationAuthorized)
    }

    /** Calls the executor for a cleared effect; the run goes on with one more step when it returns `None`. */
    method DispatchEffect(l: Ledger, c: Clearance, ghost steps: seq<EffectStep>, ghost events: seq<RunEvent>)
      returns (result: Option<RunResult>, ghost next: seq<EffectStep>)
      requires AwaitsCall(l, c, steps, events) && RepliesAre(steps) && IdentityIsValid(config.executor)
      requires DispatchedRequests(dispatched + [Dispatch(c, l.usage, l.events)]) == DispatchedRequests(dispatched) + [c.request]
      requires AllRepliesFit() && CallsAreRetained(l.request, l.effectResults, dispatched) && |l.effectResults| == |dispatched| == |steps|
      modifies l, this`executions, this`dispatched
      ensures dispatched == old(dispatched) + [Dispatch(c, old(l.usage), old(l.events))] && executions == |dispatched|
      ensures result.Some? ==> Ended(l, result.value) && |l.events| <= old(|l.events|) + 7
      ensures result.Some? && IsRefusal(result.value) <==> !AllRepliesFit()
      ensures result.None? ==>
                && |next| == |steps| + 1 && next[..|steps|] == steps && next[|steps|].cleared == c
                && LedgerRuns(l, next) && RepliesAre(next)
                && |l.events| <= old(|l.events|) + 3
                && l.charges == old(l.charges) + [next[|steps|].result.body.usage]
      ensures Meets(result, ExecutionEnding(SettingOf(l.request), old(l.usage), c.request, script.executions(|steps|)))
      ensures !(result.Some? && IsRefusal(result.value)) ==> CallsAreRetained(l.request, l.effectResults, dispatched)
      ensures !(result.Some? && IsRefusal(result.value)) ==>
                l.charges == old(l.charges) + ExecutionCharge(SettingOf(l.request), c.request, script.executions(|steps|))
    {
      hide Concluded, CheckRequest, CheckEffectRequest, IsOpen, IsNext, Mentions, Traced, HoldsClearance, IsCleared, Hashes.WellFormed;
      hide Continues, DispatchIsAuthorized, AreDistinctEffects, StepOf, Fits, Ledger.IdentitiesAgree, LedgerRuns;
      hide Requests, Results, DispatchedRequests, Clearance.GateEvents, Total, Meets, ExecutionEnding, CallsAreRetained, RetainsOne;
      next := steps;
      ghost var view, subject, results, calls := ViewOf(l), l.currentSubject, l.effectResults, dispatched;
      ClearanceFacts(l, c);
      OpenFacts(l);
      result := ExecuteEffect(l, c);
      if result.None? || !IsRefusal(result.value) {
        RetentionGrows(l, results, calls, c.request);
      }
      if result.None? {
        ghost var step := StepOf(c, script.executions(|steps|));
        next := steps + [step];
        RequestsGrow(steps, step);
        LedgerRunsOn(l, view, events, subject, steps, step);
      }
    }

    /** Handles one proposal: admission, gates, execution. The run goes on with one more step when it returns `None`. */
    method HandleProtectedEffect(l: Ledger, request: EffectRequest, ghost steps: seq<EffectStep>)
      returns (result: Option<RunResult>, ghost next: seq<EffectStep>)
      requires LedgerRuns(l, steps) && RepliesAre(steps) && DispatchesAreSound(support, config, l.request, dispatched)
      requires AllRepliesFit() && IdentityIsValid(config.executor)
      modifies l, this`executions, this`dispatched
      ensures DispatchesAreSound(support, config, l.request, dispatched) && executions == |dispatched|
      ensures dispatched == old(dispatched) ||
              (|dispatched| == |steps| + 1 && dispatched[..|steps|] == old(dispatched) && dispatched[|steps|].cleared.request == request)
      ensures result.Some? ==> Ended(l, result.value) && |l.events| <= old(|l.events|) + 11
      ensures result.Some? && IsRefusal(result.value) <==> !AllRepliesFit()
      ensures result.None? ==>
                && |next| == |steps| + 1 <= config.maxEffects && next[..|steps|] == steps && next[|steps|].cleared.request == request
                && LedgerRuns(l, next) && RepliesAre(next)
                && |l.events| <= old(|l.events|) + 7
                && l.charges == old(l.charges) + [next[|steps|].result.body.usage]
      ensures Meets(result, EffectEnding(SettingOf(l.request), old(l.usage), old(l.currentSubject), Requests(steps), request))
      ensures !(result.Some? && IsRefusal(result.value)) ==> CallsAreRetained(l.request, l.effectResults, dispatched)
      ensures !(result.Some? && IsRefusal(result.value)) ==>
                l.charges == old(l.charges) + EffectCharge(SettingOf(l.request), old(l.usage), old(l.currentSubject), Requests(steps), request)
    {
      hide Concluded, CheckRequest, CheckEffectRequest, CheckResultBody, IsOpen, IsNext, Mentions, Traced, HoldsClearance, IsCleared, Hashes.WellFormed;
      hide DispatchIsAuthorized, DispatchesAreSound, AreDistinctEffects, Fits, Ledger.IdentitiesAgree, AllRepliesFit, TookReplies;
      hide Requests, Results, DispatchedRequests, Clearance.GateEvents, Total, Meets, ClearanceEnding, ExecutionEnding, EffectEnding;
      hide EffectCharge, ExecutionCharge;
      hide CallsAreRetained, RetainsOne;
      next := steps;
      ghost var events, subject, results, calls := l.events, l.currentSubject, l.effectResults, dispatched;
      RunningRetainsCalls(l, steps);
      DispatchesAreBounded(l.request);
      OpenFacts(l);
      var cleared;
      result, cleared := ClearEffect(l, request);
      ghost var clearing := result;
      EffectMeets(l.request, l.usage, subject, Requests(steps), request, clearing, result);
      if result.Some? {
        if l.effectResults != results {
          RetentionGrows(l, results, calls, request);
        }
        return;
      }
      DispatchesGrow(support, config, l.request, dispatched, Dispatch(cleared, l.usage, l.events));
      ghost var usage := l.usage;
      result, next := DispatchEffect(l, cleared, steps, events);
      EffectMeets(l.request, usage, subject, Requests(steps), request, clearing, result);
    }

    lemma OpenFacts(l: Ledger)
      requires IsOpen(l)
      ensures support.contracts.hashes.WellFormed() && l.hashes == support.contracts.hashes
    {
    }

    lemma DispatchesAreBounded(run: AgentRunRequest)
      requires DispatchesAreSound(support, config, run, dispatched)
      ensures |DispatchedRequests(dispatched)| == |dispatched| <= config.maxEffects
    {
    }

    lemma GateEventCount(c: Clearance)
      ensures |c.GateEvents()| + 1 + c.start == c.ExecutionSequence() && |c.GateEvents()| <= 4
    {
    }

    // ---- Verification and completion ----

    /** A passing verification of the current subject is on record, later than every mutation. */
    ghost predicate IsVerified(l: Ledger)
      reads l`events, l`replay
    {
      && l.replay.passing.Some? && l.replay.lastMutation < l.replay.passing.value.0 <= |l.events|
      && l.replay.passing.value.1 == l.replay.subject
    }

    /** Records the usage a failed port call still observed, and fails the run. */
    method FailPort(l: Ledger, error: PortError, why: Word) returns (result: RunResult)
      requires IsOpen(l) && l.status != AwaitingAuthority
      modifies l`status, l`usage, l`events, l`replay, l`charges
      ensures EndsAs(result, Failed, Prefixed(why, Verbatim(error.message)))
      ensures Ended(l, result) && !IsRefusal(result)
      ensures |l.events| <= old(|l.events|) + 4
      ensures l.charges == old(l.charges) + ErrorCharge(error)
    {
      hide Concluded, CheckRequest, Interruptions, Ledger.SoundAt, Hashes.WellFormed;
      if error.usage.Some? {
        var _ := Charge(l, error.usage.value);
      }
      result := Finish(l, Failed, Prefixed(why, Verbatim(error.message)));
    }

    lemma AllowedVerificationPasses(subjectDigest: string, report: Report)
      requires VerificationDecision(config, subjectDigest, report).outcome.Allow?
      ensures report.verdict.Pass? && report.subjectDigest == subjectDigest && report.verifierId != config.implementerId
    {
      hide EvaluatePlan, EvaluatePermission, EvaluateToolTrust, EvaluateRuntime, EvaluateWorkflow, EvaluateVerification;
    }

    /** Whether the verifier's reply verifies this subject independently. */
    predicate Verifies(reply: PortReply<Report>, subjectDigest: string) {
      && reply.Success?
      && var report := reply.value.value;
      && report.verifierId in support.trustedVerifiers && report.verifierId != config.implementerId
      && report.verdict.Pass? && report.subjectDigest == subjectDigest
    }

    /** The verifier's report as event `n`. */
    function VerificationOf(n: nat, report: Report): RunEvent {
      RunEvent.Verification(n, report.subjectDigest, config.implementerId, report.verifierId, report.verdict, report.evidence)
    }

    /** Asks the verifier and charges what it cost. */
    method AskVerifier(l: Ledger) returns (result: Option<RunResult>)
      requires IsOpen(l) && l.status == Executing && UsageIsSafe(l.usage)
      modifies l`status, l`usage, l`events, l`replay, l`charges
      ensures Meets(result, ReplyEnding(script.verification, VerifierFailed, old(l.usage), l.request.budget))
      ensures result.Some? ==> Ended(l, result.value) && !IsRefusal(result.value) && |l.events| <= old(|l.events|) + 5
      ensures result.None? ==>
                && IsOpen(l) && l.status == Verifying && script.verification.Success?
                && l.charges == old(l.charges) + [script.verification.value.usage]
                && l.usage == Plus(old(l.usage), script.verification.value.usage)
                && UsageIsSafe(l.usage) && WithinBudget(l.usage, l.request.budget)
                && Mentions(l.events) == old(Mentions(l.events)) && |l.events| <= old(|l.events|) + 2
      ensures l.charges == old(l.charges) + ReplyCharge(script.verification)
    {
      hide Concluded, CheckRequest, Interruptions, Ledger.SoundAt, Hashes.WellFormed, Mentions, EndsAs, EndsFirmly;
      l.Transition(Verifying, None);
      var reply := script.verification;
      if reply.Failure? {
        var ended := FailPort(l, reply.error, VerifierFailed);
        return Some(ended);
      }
      var usageReason := Charge(l, reply.value.usage);
      if usageReason.Some? {
        var ended := End(l, Blocked, usageReason.value);
        return Some(ended);
      }
      result := None;
    }

    /** Records a trusted verifier's report and passes the verification gate. */
    method JudgeReport(l: Ledger, report: Report) returns (result: Option<RunResult>, decision: Decision)
      requires IsOpen(l) && l.status == Verifying
      modifies l`status, l`events, l`replay
      ensures decision == VerificationDecision(config, l.currentSubject.digest, report)
      ensures Meets(result, ReportEnding(SettingOf(l.request), report, l.currentSubject.digest))
      ensures result.Some? ==> Ended(l, result.value) && !IsRefusal(result.value) && |l.events| <= old(|l.events|) + 4
      ensures result.None? ==>
                && IsOpen(l) && l.status == Verifying && IsVerified(l)
                && Mentions(l.events) == old(Mentions(l.events)) && |l.events| <= old(|l.events|) + 1
      ensures report.verifierId in support.trustedVerifiers && ReportIsReceiptSafe(l.request, config.implementerId, report) ==>
                VerificationOf(old(|l.events|) + 1, report) in l.events
    {
      hide UsageAt, UsageNeverRepeats, EndsAs, EndsFirmly;
      hide Concluded, CheckRequest, Interruptions, Ledger.SoundAt, Hashes.WellFormed, Evaluate, VerificationInputFor, Mentions, ReportIsReceiptSafe;
      decision := VerificationDecision(config, l.currentSubject.digest, report);
      if report.verifierId !in support.trustedVerifiers {
        var ended := Finish(l, Blocked, Fixed(UntrustedVerifier));
        return Some(ended), decision;
      }
      var isReceiptSafe := ReportIsReceiptSafe(l.request, config.implementerId, report);
      if decision.outcome.Allow? && !isReceiptSafe {
        var ended := Finish(l, Blocked, Fixed(InvalidReport));
        return Some(ended), decision;
      }
      ghost var n := |l.events|;
      if isReceiptSafe {
        SoundLedgerFacts(l);
        l.RecordVerification(config.implementerId, report);
        assert l.events[n] == VerificationOf(n + 1, report);
      }
      if !decision.outcome.Allow? {
        var ended := Finish(l, Blocked, decision.code);
        return Some(ended), decision;
      }
      AllowedVerificationPasses(l.currentSubject.digest, report);
      result := None;
    }

    /** Asks the verifier and judges its report; the run goes on when it returns `None`. */
    method Verify(l: Ledger) returns (result: Option<RunResult>, decision: Decision)
      requires IsOpen(l) && l.status == Executing && UsageIsSafe(l.usage)
      modifies l`status, l`usage, l`events, l`replay, l`charges
      ensures result.Some? ==> Ended(l, result.value) && !IsRefusal(result.value)
      ensures result.Some? ==> |l.events| <= old(|l.events|) + 6
      ensures result.None? ==>
                && IsOpen(l) && l.status == Verifying && IsVerified(l) && decision.outcome.Allow?
                && Verifies(script.verification, l.currentSubject.digest)
                && l.charges == old(l.charges) + [script.verification.value.usage]
                && l.usage == Plus(old(l.usage), script.verification.value.usage)
                && UsageIsSafe(l.usage) && WithinBudget(l.usage, l.request.budget)
                && Mentions(l.events) == old(Mentions(l.events)) && |l.events| <= old(|l.events|) + 3
      ensures Meets(result, VerificationEnding(SettingOf(l.request), old(l.usage), l.currentSubject.digest))
      ensures script.verification.Success? && ChargeReason(old(l.usage), script.verification.value.usage, l.request.budget).None?
              && script.verification.value.value.verifierId in support.trustedVerifiers
              && ReportIsReceiptSafe(l.request, config.implementerId, script.verification.value.value)
              ==> exists n: nat :: VerificationOf(n, script.verification.value.value) in l.events
      ensures result.None? ==> decision == VerificationDecision(config, l.currentSubject.digest, script.verification.value.value)
      ensures l.charges == old(l.charges) + ReplyCharge(script.verification)
    {
      hide Concluded, CheckRequest, IsOpen, IsVerified, Evaluate, VerificationInputFor, Mentions, ReportIsReceiptSafe, EndsAs, EndsFirmly, VerificationOf;
      hide ChargeReason;
      decision := Decide(Block, VerificationFailed, []);
      result := AskVerifier(l);
      if result.Some? {
        return;
      }
      result, decision := JudgeReport(l, script.verification.value.value);
      if result.None? {
        AllowedVerificationPasses(l.currentSubject.digest, script.verification.value.value);
      }
    }

    lemma SoundLedgerFacts(l: Ledger)
      requires l.Sound()
      ensures l.replay.lastMutation <= |l.events| && l.replay.subject == l.currentSubject.digest && IsDigest(l.currentSubject.digest)
    {
    }

    /** Rechecks the host's completion conditions after verification. */
    method RecheckCompletion(l: Ledger) returns (result: Option<RunResult>)
      requires IsOpen(l) && l.status == Verifying && IsVerified(l)
      modifies l`status, l`usage, l`events, l`replay, l`charges
      ensures result.Some? ==> Ended(l, result.value) && !IsRefusal(result.value)
      ensures result.Some? ==> |l.events| <= old(|l.events|) + 4
      ensures result.None? ==>
                && IsOpen(l) && l.status == Verifying && IsVerified(l)
                && script.completionCheck.Success? && l.charges == old(l.charges) + [script.completionCheck.value.usage]
                && l.usage == Plus(old(l.usage), script.completionCheck.value.usage)
                && UsageIsSafe(l.usage) && WithinBudget(l.usage, l.request.budget)
                && Mentions(l.events) == old(Mentions(l.events)) && |l.events| <= old(|l.events|) + 1
      ensures Meets(result, RecheckEnding(SettingOf(l.request), old(l.usage)))
      ensures l.charges == old(l.charges) + ReplyCharge(script.completionCheck)
    {
      hide Concluded, CheckRequest, Interruptions, Ledger.SoundAt, Hashes.WellFormed, Mentions, EndsAs, EndsFirmly;
      var ended: RunResult;
      var reply := script.completionCheck;
      if reply.Failure? {
        ended := FailPort(l, reply.error, CompletionCheckFailed);
        return Some(ended);
      }
      var usageReason := Charge(l, reply.value.usage);
      if usageReason.Some? {
        ended := Finish(l, Blocked, Fixed(usageReason.value));
        return Some(ended);
      }
      result := None;
    }

    predicate ClaimsAreWon() {
      script.agentClaim == Success(None) && script.executorClaim == Success(None)
    }

    lemma CompletionBoundaryDecides(verification: Decision, authorized: bool)
      ensures var d := Evaluate(CompletionInputFor(verification, authorized));
              && (d.outcome.Allow? <==> authorized && verification.outcome.Allow?)
              && (d.outcome.Allow? ==> d.code == Fixed(CompletionAuthorized))
    {
      hide EvaluatePlan, EvaluatePermission, EvaluateToolTrust, EvaluateRuntime, EvaluateVerification, EvaluateWorkflow;
    }

    function CompletionEvent(sequence: nat, subjectDigest: string, decision: Decision): RunEvent {
      EffectDecision(sequence, CompletionId(), WorkflowGate, subjectDigest, subjectDigest, decision)
    }

    /** Claims completion from both ports; the run goes on, with nothing recorded, when it returns `None`. */
    method ClaimCompletion(l: Ledger) returns (result: Option<RunResult>)
      requires IsOpen(l) && l.status == Verifying
      modifies l`status, l`usage, l`events, l`replay, l`charges
      ensures result.None? <==> ClaimsAreWon()
      ensures result.None? ==>
                && l.events == old(l.events) && l.replay == old(l.replay) && l.status == old(l.status)
                && l.usage == old(l.usage) && l.charges == old(l.charges)
      ensures result.Some? ==>
                Ended(l, result.value) && !IsRefusal(result.value) && EndsBy(result.value, ClaimEnding(script)) && |l.events| <= old(|l.events|) + 4
      ensures l.charges == old(l.charges) + ClaimCharge(script)
      ensures Claim(script).Success? && Claim(script).value.Some? ==> ShowsCancellation(l, old(|l.events|), Claim(script).value.value)
    {
      hide Concluded, CheckRequest, Interruptions, Ledger.SoundAt, Hashes.WellFormed, Mentions, EndsAs, EndsFirmly, ShowsCancellation;
      var claim := script.agentClaim;
      if claim.Success? && claim.value.None? {
        claim := script.executorClaim;
      }
      if claim.Failure? {
        var failed := FailPort(l, claim.error, CompletionClaimFailed);
        return Some(failed);
      }
      if claim.value.Some? {
        var interrupted := Interrupt(l, claim.value.value);
        return Some(interrupted);
      }
      result := None;
    }

    /** Evaluates the completion boundary, claims completion, and commits to it. */
    method Complete(l: Ledger, verification: Decision) returns (result: RunResult)
      requires IsOpen(l) && l.status == Verifying && IsVerified(l) && WithinBudget(l.usage, l.request.budget)
      modifies l`status, l`usage, l`events, l`replay, l`charges, l`mutationAuthorized
      ensures Concluded(l, result) && !IsRefusal(result)
      ensures |l.events| <= old(|l.events|) + 5
      ensures result.Success? && result.value.receipt.body.terminalStatus == Completed ==>
                && ClaimsAreWon() && verification.outcome.Allow?
                && l.usage == old(l.usage) && l.charges == old(l.charges)
                && Mentions(l.events) ==
                   old(Mentions(l.events)) +
                   [CompletionEvent(old(|l.events|) + 1, l.currentSubject.digest,
                                    Evaluate(CompletionInputFor(verification, true)))]
      ensures verification.outcome.Allow? && old(!l.mutationRequired || l.mutationAuthorized) ==> EndsBy(result, ClaimEnding(script))
      ensures verification.outcome.Allow? && old(!l.mutationRequired || l.mutationAuthorized) ==> l.charges == old(l.charges) + ClaimCharge(script)
    {
      hide UsageAt;
      hide Concluded, CheckRequest, Interruptions, Ledger.SoundAt, Hashes.WellFormed, Mentions, Evaluate, CompletionInputFor, NonBlank, IsDigest;
      var authorized := !l.mutationRequired || l.mutationAuthorized;
      var completion := Evaluate(CompletionInputFor(verification, authorized));
      CompletionBoundaryDecides(verification, authorized);
      if completion.outcome.Allow? {
        var lost := ClaimCompletion(l);
        if lost.Some? {
          return lost.value;
        }
      }
      SoundLedgerFacts(l);
      l.RecordDecision(CompletionId(), WorkflowGate, l.currentSubject.digest, completion);
      if !completion.outcome.Allow? {
        result := Finish(l, Blocked, completion.code);
        return;
      }
      result := Finish(l, Completed, completion.code);
    }

    /** Verifies the current subject, rechecks completion and completes. */
    method VerifyAndFinish(l: Ledger) returns (result: RunResult)
      requires IsOpen(l) && l.status == Executing && UsageIsSafe(l.usage) && (l.mutationRequired ==> l.mutationAuthorized)
      modifies l`status, l`usage, l`events, l`replay, l`charges, l`mutationAuthorized
      ensures Concluded(l, result) && !IsRefusal(result)
      ensures EndsBy(result, FinishEnding(SettingOf(l.request), old(l.usage), l.currentSubject.digest))
      ensures |l.events| <= old(|l.events|) + 10
      ensures result.Success? && result.value.receipt.body.terminalStatus == Completed ==>
                && ClaimsAreWon() && Verifies(script.verification, l.currentSubject.digest) && script.completionCheck.Success?
                && UsageIsSafe(l.usage) && WithinBudget(l.usage, l.request.budget)
                && l.usage == Plus(Plus(old(l.usage), script.verification.value.usage), script.completionCheck.value.usage)
                && l.charges == old(l.charges) + [script.verification.value.usage, script.completionCheck.value.usage]
                && exists e :: IsCompletionOf(e, l.currentSubject.digest) && Mentions(l.events) == old(Mentions(l.events)) + [e]
      ensures l.charges == old(l.charges) + FinishCharges(SettingOf(l.request), old(l.usage), l.currentSubject.digest)
    {
      hide Concluded, CheckRequest, IsOpen, Hashes.WellFormed, Mentions, Evaluate, CompletionInputFor, IsVerified, IsDigest, NonBlank;
      hide EndsAs, EndsFirmly, VerificationEnding, RecheckEnding, ClaimEnding;
      ghost var mentions := Mentions(l.events);
      var ended, verification := Verify(l);
      if ended.Some? {
        return ended.value;
      }
      ended := RecheckCompletion(l);
      if ended.Some? {
        return ended.value;
      }
      ghost var sequence := |l.events| + 1;
      CompletionBoundaryDecides(verification, true);
      result := Complete(l, verification);
      if result.Success? && result.value.receipt.body.terminalStatus == Completed {
        ghost var e := CompletionEvent(sequence, l.currentSubject.digest, Evaluate(CompletionInputFor(verification, true)));
        assert IsCompletionOf(e, l.currentSubject.digest);
        assert Mentions(l.events) == mentions + [e];
      }
    }

    // ---- The run ----

    /** The plan, the approval it rests on, and the start of execution, after `n` events. */
    function PlanRecords(n: nat, request: AgentRunRequest, planDigest: string, subjectDigest: string): seq<RunEvent> {
      var approval := PlanApprovalFor(request.approvals, subjectDigest);
      [PlanRecorded(n + 1, planDigest)]
      + (if approval.None? then [] else [ApprovalRecorded(n + 2, approval.value)])
      + [StatusTransition(if approval.None? then n + 2 else n + 3, Planning, Executing, None)]
    }

    /** The ledger's opening: planning, its cost, the plan, the approval it rests on, and execution. */
    function PlanEvents(request: AgentRunRequest, plan: Observed<string>): seq<RunEvent> {
      [StatusTransition(1, Accepted, Planning, None), UsageRecorded(2, plan.usage)] + PlanRecords(2, request, plan.value, request.subject.digest)
    }

    /** Asks the agent for its plan and charges what it cost. */
    method AskPlan(l: Ledger) returns (result: Option<RunResult>)
      requires IsOpen(l) && l.status == Accepted && l.events == [] && l.usage == ZERO_USAGE
      modifies l`status, l`usage, l`events, l`replay, l`charges
      ensures Meets(result, ReplyEnding(script.plan, AdapterPlanFailed, ZERO_USAGE, l.request.budget))
      ensures result.Some? ==> Ended(l, result.value) && !IsRefusal(result.value)
      ensures |l.events| <= if result.Some? then 5 else 2
      ensures result.None? ==>
                && IsOpen(l) && l.status == Planning && script.plan.Success?
                && l.events == [StatusTransition(1, Accepted, Planning, None), UsageRecorded(2, l.usage)]
                && l.charges == old(l.charges) + [l.usage] && l.usage == script.plan.value.usage
                && UsageIsSafe(l.usage) && WithinBudget(l.usage, l.request.budget)
                && Mentions(l.events) == old(Mentions(l.events))
      ensures l.charges == old(l.charges) + ReplyCharge(script.plan)
    {
      hide EndsAs, EndsFirmly, UsageNeverRepeats;
      hide Concluded, CheckRequest, Interruptions, Ledger.SoundAt, Hashes.WellFormed, Mentions;
      var ended: RunResult;
      l.Transition(Planning, None);
      var reply := script.plan;
      if reply.Failure? {
        ended := FailPort(l, reply.error, AdapterPlanFailed);
        return Some(ended);
      }
      var usageReason := Charge(l, reply.value.usage);
      if usageReason.Some? {
        ended := Finish(l, Blocked, Fixed(usageReason.value));
        return Some(ended);
      }
      result := None;
    }

    /** Plans and passes the plan gate; execution begins when it returns `None`. */
    method Plan(l: Ledger) returns (result: Option<RunResult>)
      requires IsOpen(l) && l.status == Accepted && l.events == [] && l.usage == ZERO_USAGE && l.currentSubject == l.request.subject
      requires RequestIsSound(l.request)
      modifies l`status, l`usage, l`events, l`replay, l`charges
      ensures result.Some? ==> Ended(l, result.value) && !IsRefusal(result.value)
      ensures |l.events| <= if result.Some? then 8 else 5
      ensures Meets(result, PlanEnding(SettingOf(l.request)))
      ensures result.None? ==> l.events == PlanEvents(l.request, script.plan.value)
      ensures result.None? ==>
                && IsOpen(l) && l.status == Executing && script.plan.Success? && IsDigest(script.plan.value.value)
                && (exists a | a in l.request.approvals :: a.subjectDigest == l.currentSubject.digest)
                && l.charges == old(l.charges) + [script.plan.value.usage] && l.usage == script.plan.value.usage
                && UsageIsSafe(l.usage) && WithinBudget(l.usage, l.request.budget)
                && Mentions(l.events) == old(Mentions(l.events))
      ensures l.charges == old(l.charges) + ReplyCharge(script.plan)
    {
      hide EndsAs, EndsFirmly, UsageAt, UsageNeverRepeats, ReplyEnding, PlanDecision, IsOpen;
      hide Concluded, CheckRequest, Hashes.WellFormed, Mentions, IsDigest;
      OpenFacts(l);
      result := AskPlan(l);
      if result.Some? {
        return;
      }
      var planDigest := script.plan.value.value;
      if !IsDigest(planDigest) {
        var ended := End(l, Failed, PlanInvalidDigest);
        return Some(ended);
      }
      result := PassPlan(l, planDigest);
    }

    /** Records the plan and the approval it rests on, and passes the plan gate. */
    method PassPlan(l: Ledger, planDigest: string) returns (result: Option<RunResult>)
      requires IsOpen(l) && l.status == Planning && IsDigest(planDigest) && RequestIsSound(l.request) && l.currentSubject == l.request.subject
      modifies l`status, l`events, l`replay
      ensures result.Some? ==> Ended(l, result.value) && !IsRefusal(result.value)
      ensures |l.events| <= old(|l.events|) + if result.Some? then 6 else 3
      ensures Meets(result, if PlanDecision(l.request).outcome.Allow? then None else Some(Blocking(PlanDecision(l.request))))
      ensures result.None? ==>
                && IsOpen(l) && l.status == Executing && Mentions(l.events) == old(Mentions(l.events))
                && l.events == old(l.events) + PlanRecords(old(|l.events|), l.request, planDigest, l.currentSubject.digest)
                && (exists a | a in l.request.approvals :: a.subjectDigest == l.currentSubject.digest)
    {
      hide Concluded, CheckRequest, Interruptions, Ledger.SoundAt, Hashes.WellFormed, Mentions, IsDigest, ApprovalIsValid, Evaluate, PlanInputFor;
      l.RecordPlan(planDigest);
      var approval := PlanApprovalFor(l.request.approvals, l.currentSubject.digest);
      if approval.Some? {
        l.RecordApproval(approval.value);
      }
      var decision := Evaluate(PlanInputFor(l.currentSubject.digest, approval));
      if !decision.outcome.Allow? {
        var ended := BlockedFromDecision(l, decision);
        return Some(ended);
      }
      AllowedPlanIsApproved(l.currentSubject.digest, approval);
      l.Transition(Executing, None);
      result := None;
    }

    lemma AllowedPlanIsApproved(subjectDigest: string, approval: Option<Approval>)
      requires Evaluate(PlanInputFor(subjectDigest, approval)).outcome.Allow?
      ensures approval.Some? && approval.value.subjectDigest == subjectDigest
    {
      hide EvaluatePlan, EvaluatePermission, EvaluateToolTrust, EvaluateRuntime, EvaluateVerification, EvaluateWorkflow;
    }

    /** A completed run: its ledger names exactly the executed effects and one completion, its usage is the sum of every
        reply, the subject was verified independently and both completion claims were won. */
    ghost predicate CompletedRun(run: AgentRunRequest, x: Execution, steps: seq<EffectStep>, final: Subject) {
      var body := x.receipt.body;
      && final.digest == body.resultingSubject
      && CompletedLedger(support.contracts, run, body.events, x.results, steps, final)
      && body.usage == Total(CompletedCharges(script, steps)) && WithinBudget(body.usage, run.budget)
      && AtMost(StepsUsage(steps), body.usage)
      && ClaimsAreWon() && Verifies(script.verification, final.digest) && script.completionCheck.Success?
    }

    lemma CompletionIsTraced(l: Ledger, x: Execution, steps: seq<EffectStep>, before: seq<RunEvent>, e: RunEvent)
      requires support.contracts.hashes.WellFormed()
      requires Concluded(l, Success(x)) && l.effectResults == Results(steps)
      requires Traced(support.contracts, l.request, before, steps, l.currentSubject)
      requires IsCompletionOf(e, l.currentSubject.digest) && Mentions(l.events) == Mentions(before) + [e]
      requires UsageIsSafe(Total(l.charges)) && l.charges == CompletedCharges(script, steps) && WithinBudget(l.usage, l.request.budget)
      requires ClaimsAreWon() && Verifies(script.verification, l.currentSubject.digest) && script.completionCheck.Success?
      ensures CompletedRun(l.request, x, steps, l.currentSubject)
    {
      hide CheckReceiptBody, Interruptions, UsageNeverRepeats, StepSucceeded, StepsChain, Blocks, Mentions, AreDistinctEffects, Total, ChargesOf;
      ghost var charges := ChargesOf(script, steps);
      ghost var asked, verified, rechecked := ReplyUsage(script.steps(|steps|)), ReplyUsage(script.verification), ReplyUsage(script.completionCheck);
      StepsUsageIsCharged(script, steps);
      TotalGrows(charges, asked);
      TotalGrows(charges + [asked], verified);
      TotalGrows(charges + [asked] + [verified], rechecked);
      assert CompletedCharges(script, steps) == charges + [asked] + [verified] + [rechecked];
    }

    /** Asks the agent for its next step and charges what the answer cost. */
    method AskAgent(l: Ledger, ghost steps: seq<EffectStep>) returns (ended: Option<RunResult>, step: AgentStep)
      requires LedgerRuns(l, steps)
      modifies l`status, l`usage, l`events, l`replay, l`charges, this`stepsAsked
      ensures stepsAsked == old(stepsAsked) + 1
      ensures Meets(ended, ReplyEnding(script.steps(old(stepsAsked)), AdapterNextEffectFailed, old(l.usage), l.request.budget))
      ensures ended.Some? ==> Ended(l, ended.value) && !IsRefusal(ended.value)
      ensures |l.events| <= old(|l.events|) + if ended.Some? then 4 else 1
      ensures ended.None? ==>
                && LedgerRuns(l, steps) && script.steps(old(stepsAsked)).Success? && step == script.steps(old(stepsAsked)).value.value
                && l.charges == old(l.charges) + [script.steps(old(stepsAsked)).value.usage]
                && l.usage == Plus(old(l.usage), script.steps(old(stepsAsked)).value.usage) && |l.events| >= old(|l.events|)
      ensures l.charges == old(l.charges) + ReplyCharge(script.steps(old(stepsAsked)))
    {
      hide Concluded, CheckRequest, Interruptions, Ledger.SoundAt, Hashes.WellFormed, Mentions, StepSucceeded, StepsChain, Blocks, AreDistinctEffects;
      hide Requests, Results, Total, IsOpen;
      var result: RunResult;
      var reply := script.steps(stepsAsked);
      stepsAsked := stepsAsked + 1;
      step := FinishRun;
      if reply.Failure? {
        result := FailPort(l, reply.error, AdapterNextEffectFailed);
        return Some(result), step;
      }
      TotalGrows(l.charges, reply.value.usage);
      var usageReason := Charge(l, reply.value.usage);
      if usageReason.Some? {
        result := End(l, Blocked, usageReason.value);
        return Some(result), step;
      }
      return None, reply.value.value;
    }

    method Interrupt(l: Ledger, cancellation: Cancellation) returns (result: RunResult)
      requires IsOpen(l)
      modifies l`status, l`events, l`replay
      ensures Ended(l, result) && !IsRefusal(result)
      ensures EndsFirmly(result, Interrupted, Fixed(RuntimeInterrupted))
      ensures ShowsCancellation(l, old(|l.events|), cancellation)
      ensures old(|l.events|) < |l.events| <= old(|l.events|) + 4
    {
      hide Concluded, CheckRequest, Interruptions, Ledger.SoundAt, Mentions, SanitizeCancellation;
      l.RecordInterruption(SanitizeCancellation(support.contracts.hashes, cancellation));
      result := Finish(l, Interrupted, Fixed(RuntimeInterrupted));
    }

    /** The run has executed these steps and has not ended. */
    ghost predicate InProgress(l: Ledger, steps: seq<EffectStep>)
      reads l, this
    {
      && LedgerRuns(l, steps) && RepliesAre(steps) && stepsAsked == |steps| <= config.maxEffects && IdentityIsValid(config.executor)
      && DispatchesAreSound(support, config, l.request, dispatched) && AllRepliesFit() && CallsAreProposed()
      && CallsAreRetained(l.request, l.effectResults, dispatched)
      && l.charges == ChargesOf(script, steps) && GoesThrough(SettingOf(l.request), steps)
    }

    /** Takes one step of the agent; the run goes on with one more executed effect when it returns `None`. */
    method TakeStep(l: Ledger, ghost steps: seq<EffectStep>) returns (ended: Option<RunResult>, ghost next: seq<EffectStep>)
      requires InProgress(l, steps)
      modifies l, this`stepsAsked, this`executions, this`dispatched
      ensures stepsAsked == |steps| + 1 && DispatchesAreSound(support, config, l.request, dispatched) && CallsAreProposed()
      ensures ended.Some? ==>
                && Concluded(l, ended.value) && |l.events| <= old(|l.events|) + 12
                && (IsRefusal(ended.value) <==> !AllRepliesFit())
                && Meets(ended, NextEnding(SettingOf(l.request), steps))
      ensures ended.Some? && !IsRefusal(ended.value) ==>
                && CallsAreRetained(l.request, l.effectResults, dispatched)
                && l.charges == ChargesOf(script, steps) + NextCharges(SettingOf(l.request), steps)
      ensures ended.Some? && ended.value.Success? && ended.value.value.receipt.body.terminalStatus == Completed ==>
                CompletedRun(l.request, ended.value.value, steps, l.currentSubject) && RepliesAre(steps)
      ensures ended.None? ==>
                && |next| == |steps| + 1 && next[..|steps|] == steps
                && InProgress(l, next) && |l.events| <= old(|l.events|) + 8
      ensures ReplyEnding(script.steps(|steps|), AdapterNextEffectFailed, old(l.usage), l.request.budget).None? ==>
                ObeysCancellation(l, old(|l.events|), script.steps(|steps|))
    {
      hide CallsAreRetained, Concluded, CheckRequest, IsOpen, Hashes.WellFormed, Mentions, Traced, StepsChain, DispatchesAreSound, ChargesOf;
      hide IdentityIsValid, CompletedRun, DispatchedRequests, Total, Requests, Results, Ledger.IdentitiesAgree, AllRepliesFit, AreDistinctEffects;
      hide Verifies, NextEnding, GoesThrough, EffectEnding, FinishEnding, ReplyEnding, EndsAs, EndsFirmly, TookReplies;
      hide NextCharges, EffectCharge, FinishCharges, ReplyCharge, ShowsCancellation;
      next := steps;
      AnswerDecides(l, steps);
      var step;
      ended, step := AskAgent(l, steps);
      if ended.Some? {
        return;
      }
      match step {
        case ProposeEffect(request) =>
          ghost var calls := dispatched;
          ended, next := HandleProtectedEffect(l, request, steps);
          ProposalIsCalled(calls, request);
          if ended.None? {
            ChargesGrow(steps, next);
            GoesFurther(SettingOf(l.request), steps, next);
          }
        case FinishRun =>
          var result := FinishSteps(l, steps);
          ended := Some(result);
        case CancelRun(cancellation) =>
          ghost var n := |l.events|;
          var result := Interrupt(l, cancellation);
          assert ShowsCancellation(l, n, cancellation);
          ended := Some(result);
      }
    }

    /** Takes the agent's steps until one of them ends the run. */
    method RunSteps(l: Ledger) returns (result: RunResult, ghost steps: seq<EffectStep>)
      requires InProgress(l, []) && |l.events| <= 5
      modifies l, this`stepsAsked, this`executions, this`dispatched
      ensures Concluded(l, result)
      ensures |l.events| <= 8 * config.maxEffects + 17 && stepsAsked <= config.maxEffects + 1
      ensures DispatchesAreSound(support, config, l.request, dispatched)
      ensures IsRefusal(result) <==> !AllRepliesFit()
      ensures result.Success? && result.value.receipt.body.terminalStatus == Completed ==>
                && CompletedRun(l.request, result.value, steps, l.currentSubject) && RepliesAre(steps)
                && stepsAsked == |steps| + 1
      ensures GoesThrough(SettingOf(l.request), steps) && TookReplies(steps) && CallsAreProposed()
      ensures Meets(Some(result), NextEnding(SettingOf(l.request), steps))
      ensures !IsRefusal(result) ==>
                && CallsAreRetained(l.request, l.effectResults, dispatched)
                && l.charges == ChargesOf(script, steps) + NextCharges(SettingOf(l.request), steps)
    {
      hide InProgress, Concluded, CallsAreRetained, CompletedRun, NextEnding, Meets, NextCharges, ChargesOf, DispatchesAreSound, AllRepliesFit;
      hide GoesThrough, TookReplies, CallsAreProposed, RepliesAre;
      steps := [];
      while true
        invariant InProgress(l, steps) && |l.events| <= 5 + 8 * |steps| && |steps| <= config.maxEffects
        decreases config.maxEffects - |steps|
      {
        ProgressFacts(l, steps);
        var ended, next := TakeStep(l, steps);
        if ended.Some? {
          return ended.value, steps;
        }
        ProgressFacts(l, next);
        steps := next;
      }
    }

    lemma ProgressFacts(l: Ledger, steps: seq<EffectStep>)
      requires InProgress(l, steps)
      ensures GoesThrough(SettingOf(l.request), steps) && TookReplies(steps) && |steps| <= config.maxEffects
    {
      hide LedgerRuns, GoesThrough, TookReplies, DispatchesAreSound, AllRepliesFit, CallsAreProposed, CallsAreRetained, IdentityIsValid;
    }

    lemma ProposalIsCalled(calls: seq<Dispatch>, request: EffectRequest)
      requires forall i | 0 <= i < |calls| ::
                 script.steps(i).Success? && script.steps(i).value.value == ProposeEffect(calls[i].cleared.request)
      requires script.steps(|calls|).Success? && script.steps(|calls|).value.value == ProposeEffect(request)
      requires dispatched == calls ||
               (|dispatched| == |calls| + 1 && dispatched[..|calls|] == calls && dispatched[|calls|].cleared.request == request)
      ensures CallsAreProposed()
    {
      assert forall i | 0 <= i < |calls| :: dispatched[..|calls|][i] == calls[i];
    }

    lemma AnswerDecides(l: Ledger, steps: seq<EffectStep>)
      requires LedgerRuns(l, steps) && l.charges == ChargesOf(script, steps)
      ensures NextEnding(SettingOf(l.request), steps) ==
              AnswerEnding(SettingOf(l.request), l.usage, l.currentSubject, Requests(steps), script.steps(|steps|))
      ensures NextCharges(SettingOf(l.request), steps) ==
              AnswerCharges(SettingOf(l.request), l.usage, l.currentSubject, Requests(steps), script.steps(|steps|))
    {
      hide AnswerEnding, AnswerCharges, IsOpen, Ledger.IdentitiesAgree, ChargesOf, Total;
      ChainLeadsTo(l.request.subject, steps, l.currentSubject);
    }

    lemma ChargesGrow(steps: seq<EffectStep>, next: seq<EffectStep>)
      requires |next| == |steps| + 1 && next[..|steps|] == steps
      ensures ChargesOf(script, next) == ChargesOf(script, steps) + [ReplyUsage(script.steps(|steps|)), next[|steps|].result.body.usage]
    {
    }

    /** Verifies and completes a run whose executed effects are `steps`. */
    method FinishSteps(l: Ledger, ghost steps: seq<EffectStep>) returns (result: RunResult)
      requires LedgerRuns(l, steps) && l.charges == ChargesOf(script, steps) + [ReplyUsage(script.steps(|steps|))]
      modifies l`status, l`usage, l`events, l`replay, l`charges, l`mutationAuthorized
      ensures Concluded(l, result) && !IsRefusal(result)
      ensures EndsBy(result, FinishEnding(SettingOf(l.request), old(l.usage), old(l.currentSubject).digest))
      ensures |l.events| <= old(|l.events|) + 10
      ensures result.Success? && result.value.receipt.body.terminalStatus == Completed ==>
                CompletedRun(l.request, result.value, steps, l.currentSubject)
      ensures l.charges == old(l.charges) + FinishCharges(SettingOf(l.request), old(l.usage), old(l.currentSubject).digest)
    {
      hide FinishEnding, EndsAs, EndsFirmly;
      hide CheckRequest, IsOpen, Hashes.WellFormed, Mentions, Traced, StepsChain, ChargesOf, CompletedRun, Total, Requests, Results;
      hide Concluded, Ledger.IdentitiesAgree;
      ghost var events, charges := l.events, l.charges;
      OpenFacts(l);
      result := VerifyAndFinish(l);
      if result.Success? && result.value.receipt.body.terminalStatus == Completed {
        ghost var e :| IsCompletionOf(e, l.currentSubject.digest) && Mentions(l.events) == Mentions(events) + [e];
        ConcludedFacts(l, result.value);
        ghost var u, v := script.verification.value.usage, script.completionCheck.value.usage;
        TotalGrows(charges, u);
        TotalGrows(charges + [u], v);
        assert l.charges == charges + [u] + [v] == CompletedCharges(script, steps);
        CompletionIsTraced(l, result.value, steps, events, e);
      }
    }

    lemma ConcludedFacts(l: Ledger, x: Execution)
      requires Concluded(l, Success(x)) && WithinBudget(l.usage, l.request.budget)
      ensures x.results == l.effectResults
    {
      hide CheckReceiptBody, Interruptions, UsageNeverRepeats, Total;
    }

    lemma PlannedRuns(l: Ledger)
      requires IsOpen(l) && l.status == Executing && l.IdentitiesAgree() && l.accepted == [] && l.effectResults == []
      requires l.currentSubject == l.request.subject && !l.mutationRequired && Mentions(l.events) == []
      requires l.charges == [l.usage] && UsageIsSafe(l.usage) && WithinBudget(l.usage, l.request.budget)
      ensures LedgerRuns(l, [])
    {
      hide CheckRequest, IsOpen, Ledger.IdentitiesAgree;
      TotalGrows([], l.usage);
      assert [] + [l.usage] == l.charges;
      assert AreDistinctEffects(support.contracts.hashes, Requests([]));
      assert StepsChain(l.request.subject, [], l.currentSubject);
    }

    /** The calls and the steps of a run: authorised, distinct and bounded calls for the agent's proposals, each with its result, steps
        that the replies determine, and a refusal exactly when some reply does not fit. */
    ghost predicate Accounts(run: AgentRunRequest, result: RunResult, steps: seq<EffectStep>)
      reads this
    {
      && stepsAsked <= config.maxEffects + 1 && DispatchesAreSound(support, config, run, dispatched)
      && (IsRefusal(result) <==> !AllRepliesFit())
      && GoesThrough(SettingOf(run), steps) && TookReplies(steps) && CallsAreProposed()
      && (result.Success? ==> CallsAreRetained(run, result.value.results, dispatched))
      && (result.Success? && result.value.receipt.body.terminalStatus == Completed ==> RepliesAre(steps) && stepsAsked == |steps| + 1)
    }

    method RunInner(request: AgentRunRequest) returns (result: RunResult, ghost l: Ledger?, ghost steps: seq<EffectStep>)
      requires support.contracts.hashes.WellFormed()
      requires stepsAsked == 0 && executions == 0 && dispatched == []
      modifies this`stepsAsked, this`executions, this`dispatched
      ensures result == Failure(InvalidConfig) <==> !ConfigIsValid(config, request) || !SupportIsValid(support)
      ensures ConfigIsValid(config, request) && SupportIsValid(support) ==>
                if CheckRequest(request, support.contracts.policies).Some? then
                  result == Failure(ContractRefused(CheckRequest(request, support.contracts.policies).value))
                else l != null && fresh(l) && l.request == request && Concluded(l, result) && |l.events| <= 8 * config.maxEffects + 17
      ensures stepsAsked > 0 ==> exists a | a in request.approvals :: a.subjectDigest == request.subject.digest
      ensures result.Success? && result.value.receipt.body.terminalStatus == Completed ==>
                l != null && CompletedRun(request, result.value, steps, l.currentSubject)
      ensures Accounts(request, result, steps)
      ensures l != null ==> Meets(Some(result), RunEnding(SettingOf(request), steps))
      ensures l != null && !IsRefusal(result) ==> l.charges == RunCharges(SettingOf(request), steps)
    {
      hide RunCharges, NextCharges, ReplyCharge, ChargesOf, InProgress, Accounts, DispatchesAreSound, RepliesAre, AllRepliesFit;
      hide PlanEnding, NextEnding, GoesThrough, TookReplies, EndsAs, EndsFirmly, UsageAt, UsageNeverRepeats, CheckReceiptBody, PlanEvents, EndsBy;
      hide SettingOf, Mentions, Traced, StepsChain, LedgerRuns;
      hide CheckRequest, CompletedRun, Total, Ledger.IdentitiesAgree, Hashes.WellFormed, Ledger.SoundAt, SupportIsValid, Interruptions, RequestIsSound;
      l, steps := null, [];
      var configured := ValidateConfig(config, request);
      var supported := ValidateSupport(support);
      if !configured || !supported {
        UncalledAccounts(request, Failure(InvalidConfig));
        return Failure(InvalidConfig), null, [];
      }
      var admitted := ValidateRequest(support.contracts, request);
      if admitted.Failure? {
        UncalledAccounts(request, Failure(ContractRefused(admitted.error)));
        return Failure(ContractRefused(admitted.error)), null, [];
      }
      AdmittedSubject(request);
      var ledger := new Ledger(support.contracts.hashes, request, admitted.value);
      l := ledger;
      EmptyLedgerFacts();
      var ended := Plan(ledger);
      if ended.Some? {
        UncalledAccounts(request, ended.value);
        RunIsCharged(request, []);
        assert [] + ReplyCharge(script.plan) == ledger.charges;
        return ended.value, l, [];
      }
      PlannedRuns(ledger);
      StartsInProgress(ledger);
      result, steps := RunSteps(ledger);
      StepsAccount(ledger, result, steps);
      RunIsCharged(request, steps);
    }

    lemma RunIsCharged(run: AgentRunRequest, steps: seq<EffectStep>)
      ensures RunCharges(SettingOf(run), steps) ==
              if PlanEnding(SettingOf(run)).Some? then ReplyCharge(script.plan) else ChargesOf(script, steps) + NextCharges(SettingOf(run), steps)
    {
      hide PlanEnding, ReplyCharge, ChargesOf, NextCharges;
    }

    lemma StartsInProgress(l: Ledger)
      requires LedgerRuns(l, []) && ConfigIsValid(config, l.request)
      requires stepsAsked == 0 && executions == 0 && dispatched == [] && l.charges == [ReplyUsage(script.plan)]
      ensures InProgress(l, [])
    {
      hide NextEnding, LedgerRuns;
      UncalledFacts(l.request);
      GoesNowhere(SettingOf(l.request));
      RunningRetainsCalls(l, []);
    }

    lemma StepsAccount(l: Ledger, result: RunResult, steps: seq<EffectStep>)
      requires Concluded(l, result) && stepsAsked <= config.maxEffects + 1 && DispatchesAreSound(support, config, l.request, dispatched)
      requires IsRefusal(result) <==> !AllRepliesFit()
      requires result.Success? && result.value.receipt.body.terminalStatus == Completed ==> RepliesAre(steps) && stepsAsked == |steps| + 1
      requires GoesThrough(SettingOf(l.request), steps) && TookReplies(steps) && CallsAreProposed()
      requires !IsRefusal(result) ==> CallsAreRetained(l.request, l.effectResults, dispatched)
      ensures Accounts(l.request, result, steps)
    {
      hide DispatchesAreSound, RepliesAre, AllRepliesFit, GoesThrough, TookReplies, CallsAreProposed, CallsAreRetained, CheckReceiptBody;
    }

    /** Before the first step nothing was called, and nothing was retained. */
    lemma UncalledFacts(run: AgentRunRequest)
      requires stepsAsked == 0 && executions == 0 && dispatched == []
      ensures RepliesAre([]) && DispatchesAreSound(support, config, run, dispatched) && AllRepliesFit()
    {
    }

    lemma UncalledAccounts(run: AgentRunRequest, result: RunResult)
      requires stepsAsked == 0 && executions == 0 && dispatched == [] && !IsRefusal(result)
      requires result.Success? ==> result.value.results == [] && result.value.receipt.body.terminalStatus != Completed
      ensures Accounts(run, result, [])
    {
      hide NextEnding;
      UncalledFacts(run);
      GoesNowhere(SettingOf(run));
      TakesNothing();
    }

    lemma AdmittedSubject(request: AgentRunRequest)
      requires RequestIsSound(request)
      ensures SubjectIsValid(request.subject)
    {
    }

    lemma TakesNothing()
      ensures TookReplies([])
    {
    }

    lemma EmptyLedgerFacts()
      ensures Mentions([]) == [] && Interruptions([]) == 0
    {
    }

    /** One bounded run. Whatever the ports answer, the receipt is the ledger's and the checker accepts it; the agent is
        released on every return. The ledger and the executed steps are returned as ghosts. */
    method Run(request: AgentRunRequest) returns (result: RunResult, ghost l: Ledger?, ghost steps: seq<EffectStep>)
      requires support.contracts.hashes.WellFormed()
      requires stepsAsked == 0 && executions == 0 && dispatched == []
      modifies this
      ensures closed
      ensures result == Failure(InvalidConfig) <==> !ConfigIsValid(config, request) || !SupportIsValid(support)
      ensures ConfigIsValid(config, request) && SupportIsValid(support) && CheckRequest(request, support.contracts.policies).Some? ==>
                result == Failure(ContractRefused(CheckRequest(request, support.contracts.policies).value))
      ensures ConfigIsValid(config, request) && SupportIsValid(support) && CheckRequest(request, support.contracts.policies).None? ==>
                l != null && fresh(l) && l.request == request && Concluded(l, result)
      ensures result.Success? ==> VerifyReceipt(support.contracts, request, result.value.receipt)
      ensures 8 * config.maxEffects + 17 <= MAX_SAFE_INTEGER ==> !(result.Failure? && result.error.ReceiptRefused?)
      ensures IsRefusal(result) <==> !AllRepliesFit()
      ensures stepsAsked <= config.maxEffects + 1 && DispatchesAreSound(support, config, request, dispatched)
      ensures stepsAsked > 0 ==> exists a | a in request.approvals :: a.subjectDigest == request.subject.digest
      ensures result.Success? && result.value.receipt.body.terminalStatus == Completed ==>
                l != null && CompletedRun(request, result.value, steps, l.currentSubject) && RepliesAre(steps) && stepsAsked == |steps| + 1
      ensures GoesThrough(SettingOf(request), steps) && TookReplies(steps) && CallsAreProposed()
      ensures l != null ==> Meets(Some(result), RunEnding(SettingOf(request), steps))
      ensures l != null && !IsRefusal(result) ==> l.charges == RunCharges(SettingOf(request), steps)
      ensures result.Success? ==> CallsAreRetained(request, result.value.results, dispatched)
      ensures result.Success? ==> result.value.receipt.body.usage == Cap(Total(RunCharges(SettingOf(request), steps)))
    {
      hide RunEnding, RunCharges, GoesThrough, TookReplies, EndsAs, EndsFirmly, CallsAreRetained;
      hide CheckRequest, Mentions, CompletedRun, Total, SupportIsValid, ConfigIsValid, CheckReceiptBody, Interruptions, UsageNeverRepeats;
      hide DispatchesAreSound, RepliesAre, AllRepliesFit;
      result, l, steps := RunInner(request);
      closed := true;
    }
  }
}

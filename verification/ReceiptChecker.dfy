/** The first checker: one pass over a terminal receipt's ledger. */
module ReceiptChecker {
  import opened Text
  import opened Contracts
  import opened UsageArithmetic

  datatype RecordedDecision = RecordedDecision(
    sequence: nat, gate: Gate, effectDigest: string, subjectDigest: string, outcome: Outcome, code: Phrase)

  /** The variables that the pass carries from event to event. */
  datatype Replay = Replay(
    status: RunStatus,
    subject: string,
    lastMutation: nat,
    passing: Option<(nat, string)>,
    usage: Option<Usage>,
    completion: Option<RecordedDecision>,
    decisions: map<string, RecordedDecision>,
    interrupted: bool)

  function InitialReplay(initialSubject: string): Replay {
    Replay(Accepted, initialSubject, 0, None, None, None, map[], false)
  }

  predicate ValidTransition(from: RunStatus, to: RunStatus) {
    && !from.IsTerminal()
    && from != to
    && (|| to in {Blocked, Failed, Interrupted}
        || (from, to) in {
             (Accepted, Planning),
             (Planning, AwaitingAuthority), (Planning, Executing),
             (AwaitingAuthority, Planning), (AwaitingAuthority, Executing),
             (Executing, AwaitingAuthority), (Executing, Verifying),
             (Verifying, Executing), (Verifying, Completed)})
  }

  function RecordOf(e: RunEvent): RecordedDecision
    requires e.EffectDecision?
  {
    RecordedDecision(e.sequence, e.gate, e.effectDigest, e.subjectDigest, e.decision.outcome, e.decision.code)
  }

  predicate AuthorizesCompletion(gate: Gate, decision: Decision) {
    gate.WorkflowGate? && decision.outcome.Allow? && decision.code == Fixed(CompletionAuthorized)
  }

  /** Whether a recorded decision permits an effect recorded at `sequence`. */
  predicate Permits(d: RecordedDecision, effectDigest: string, sequence: nat, subject: string, gate: Gate) {
    d.sequence < sequence && d.effectDigest == effectDigest && d.subjectDigest == subject && d.gate == gate && d.outcome.Allow?
  }

  function CheckAuthorization(
    decisions: map<string, RecordedDecision>, decisionId: string, effectDigest: string, sequence: nat, subject: string, gate: Gate): Check
  {
    Then(CheckText(decisionId),
    Then(CheckDigest(effectDigest),
    Then(Require(decisionId in decisions, UnauthorizedEffect),
         if decisionId in decisions then Require(Permits(decisions[decisionId], effectDigest, sequence, subject, gate), UnauthorizedEffect) else None)))
  }

  function CheckEvidenceOfKind(evidence: seq<Evidence>, kind: EvidenceType): Check {
    Then(CheckEvidenceSet(evidence), Require(HasEvidence(evidence, kind), InvalidContract))
  }

  /** The checks one event must pass in the state the earlier events left. */
  function CheckEvent(request: AgentRunRequest, st: Replay, e: RunEvent): Check {
    match e
    case StatusTransition(_, from, to, reason) =>
      Then(Require(from == st.status && ValidTransition(from, to), InvalidTransition),
           if reason.Some? then CheckPhrase(reason.value) else None)
    case PlanRecorded(_, planDigest) => CheckDigest(planDigest)
    case ApprovalRecorded(_, approval) => CheckRecordedApproval(approval)
    case EffectDecision(_, id, _, effectDigest, subjectDigest, decision) =>
      Then(CheckText(id),
      Then(CheckDigest(effectDigest),
      Then(CheckDigest(subjectDigest),
      Then(Require(subjectDigest == st.subject, InvalidContract),
      Then(CheckPhrase(decision.code),
      Then(CheckPhrases(decision.effects),
           Require(id !in st.decisions, InvalidContract)))))))
    case ToolExecution(sequence, id, effectDigest, actionDigest, capabilityDigest, evidence) =>
      Then(CheckAuthorization(st.decisions, id, effectDigest, sequence, st.subject, PermissionGate),
      Then(CheckDigest(actionDigest),
      Then(CheckDigest(capabilityDigest),
      Then(Require(capabilityDigest == request.requestedCapability.digest, RequestMismatch),
           CheckEvidenceOfKind(evidence, ToolExecutionEvidence)))))
    case Mutation(sequence, id, effectDigest, before, after, evidence) =>
      Then(CheckAuthorization(st.decisions, id, effectDigest, sequence, st.subject, WorkflowGate),
      Then(CheckDigest(before),
      Then(CheckDigest(after),
      Then(Require(before == st.subject, InvalidContract),
           CheckEvidenceOfKind(evidence, ArtifactEvidence)))))
    case Verification(_, subjectDigest, implementerId, verifierId, verdict, evidence) =>
      Then(CheckDigest(subjectDigest),
      Then(CheckText(implementerId),
      Then(CheckText(verifierId),
      Then(CheckEvidenceSet(evidence),
           Require(verdict.Pass? ==> implementerId != verifierId && forall t | t in request.requiredEvidence :: HasEvidence(evidence, t), InvalidContract)))))
    case UsageRecorded(_, usage) =>
      Then(CheckUsage(usage), Require(st.usage.Some? ==> AtMost(st.usage.value, usage), InvalidContract))
    case Interruption(_, actorId, why, evidence) =>
      Then(if actorId.Some? then CheckText(actorId.value) else None,
      Then(CheckPhrase(why),
      Then(CheckEvidence(evidence),
           Require(evidence.evidenceType == InterruptionEvidence, InvalidContract))))
  }

  /** The state after an accepted event. */
  function Apply(st: Replay, e: RunEvent): Replay {
    match e
    case StatusTransition(_, _, to, _) => st.(status := to)
    case EffectDecision(_, id, gate, _, _, decision) =>
      var recorded := st.(decisions := st.decisions[id := RecordOf(e)]);
      if AuthorizesCompletion(gate, decision) then recorded.(completion := Some(RecordOf(e))) else recorded
    case Mutation(sequence, _, _, _, after, _) => st.(subject := after, lastMutation := sequence)
    case Verification(sequence, subjectDigest, _, _, verdict, _) =>
      if verdict.Pass? && subjectDigest == st.subject then st.(passing := Some((sequence, subjectDigest))) else st
    case UsageRecorded(_, usage) => st.(usage := Some(usage))
    case Interruption(_, _, _, _) => st.(interrupted := true)
    case _ => st
  }

  /** One turn of the loop: `index` events came before. */
  function Step(request: AgentRunRequest, st: Replay, index: nat, e: RunEvent): (result: Result<Replay, ErrorCode>)
    ensures result.Success? ==> result.value == Apply(st, e)
  {
    var c := Then(Require(e.sequence == index + 1, InvalidContract), Then(CheckSafe(e.sequence), CheckEvent(request, st, e)));
    if c.Some? then Failure(c.value) else Success(Apply(st, e))
  }

  function ReplayEvents(request: AgentRunRequest, initialSubject: string, events: seq<RunEvent>): Result<Replay, ErrorCode> {
    if events == [] then Success(InitialReplay(initialSubject))
    else
      var last := |events| - 1;
      match ReplayEvents(request, initialSubject, events[..last])
      case Failure(code) => Failure(code)
      case Success(st) => Step(request, st, last, events[last])
  }

  lemma ReplayNothing(request: AgentRunRequest, initialSubject: string)
    ensures ReplayEvents(request, initialSubject, []) == Success(InitialReplay(initialSubject))
  {
  }

  /** Replaying one more event is one more step. */
  lemma ReplayAppend(request: AgentRunRequest, initialSubject: string, events: seq<RunEvent>, e: RunEvent)
    ensures ReplayEvents(request, initialSubject, events + [e]) ==
            match ReplayEvents(request, initialSubject, events)
            case Failure(code) => Failure(code)
            case Success(st) => Step(request, st, |events|, e)
  {
    assert (events + [e])[..|events|] == events;
  }

  function CheckHeader(support: ContractSupport, request: AgentRunRequest, body: ReceiptBody): Check {
    Then(CheckRequest(request, support.policies),
    Then(Require(body.schemaVersion == TERMINAL_RUN_RECEIPT_SCHEMA, UnsupportedSchema),
    Then(Require(body.requestId == request.requestId, RequestMismatch),
    Then(Require(body.runId == request.runId, RequestMismatch),
    Then(Require(body.requestDigest == support.hashes.request(request), RequestMismatch),
    Then(Require(body.initialSubject == request.subject.digest, RequestMismatch),
    Then(CheckDigest(body.resultingSubject),
    Then(Require(body.terminalStatus.IsTerminal(), InvalidContract),
    Then(CheckPhrase(body.terminalReason),
    Then(CheckUsage(body.usage),
         Require(body.events != [], InvalidContract)))))))))))
  }

  function CheckCompleted(request: AgentRunRequest, usage: Usage, st: Replay): Check {
    Then(Require(WithinBudget(usage, request.budget), InvalidContract),
    Then(Require(st.passing.Some? && st.passing.value.0 > st.lastMutation && st.passing.value.1 == st.subject, StaleVerification),
         Require(
           && st.completion.Some?
           && st.passing.Some?
           && st.completion.value.sequence > st.passing.value.0
           && st.completion.value.subjectDigest == st.subject
           && st.completion.value.effectDigest == st.subject
           && st.completion.value.outcome.Allow?
           && st.completion.value.gate.WorkflowGate?
           && st.completion.value.code == Fixed(CompletionAuthorized), UnauthorizedEffect)))
  }

  predicate EndsIn(events: seq<RunEvent>, status: RunStatus) {
    events != [] && var last := events[|events| - 1]; last.StatusTransition? && last.to == status
  }

  /** The checks after the loop. */
  function CheckFinal(request: AgentRunRequest, body: ReceiptBody, st: Replay): Check {
    Then(Require(st.status == body.terminalStatus, InvalidTransition),
    Then(Require(EndsIn(body.events, body.terminalStatus), InvalidTransition),
    Then(Require(st.subject == body.resultingSubject, RequestMismatch),
    Then(Require(st.usage == Some(body.usage), InvalidContract),
    Then(Require(body.terminalStatus == Interrupted ==> st.interrupted, InvalidContract),
         if body.terminalStatus == Completed then CheckCompleted(request, body.usage, st)
         else Require(st.completion.None?, InvalidContract))))))
  }

  function CheckReceiptBody(support: ContractSupport, request: AgentRunRequest, body: ReceiptBody): Check {
    var header := CheckHeader(support, request, body);
    if header.Some? then header
    else
      match ReplayEvents(request, body.initialSubject, body.events)
      case Failure(code) => Some(code)
      case Success(st) => CheckFinal(request, body, st)
  }

  /** Sealing checks the body and addresses it by content. */
  function SealReceipt(support: ContractSupport, request: AgentRunRequest, body: ReceiptBody): (sealed: Result<Receipt, ErrorCode>)
    ensures sealed.Success? <==> CheckReceiptBody(support, request, body).None?
    ensures sealed.Success? ==> sealed.value == Receipt(support.hashes.receipt(body), body)
  {
    var c := CheckReceiptBody(support, request, body);
    if c.Some? then Failure(c.value) else Success(Receipt(support.hashes.receipt(body), body))
  }

  /** Verifying recomputes the digest and repeats the checks. */
  predicate VerifyReceipt(support: ContractSupport, request: AgentRunRequest, receipt: Receipt) {
    && IsDigest(receipt.digest)
    && support.hashes.receipt(receipt.body) == receipt.digest
    && CheckReceiptBody(support, request, receipt.body).None?
  }

  /** The checker itself: a single loop over the events. */
  method ValidateReceiptBody(support: ContractSupport, request: AgentRunRequest, body: ReceiptBody) returns (result: Check)
    ensures result == CheckReceiptBody(support, request, body)
  {
    hide CheckEvent, CheckHeader, CheckFinal, ReplayEvents;
    var header := CheckHeader(support, request, body);
    if header.Some? {
      return header;
    }
    var status := Accepted;
    var currentSubject := body.initialSubject;
    var lastMutation: nat := 0;
    var passing: Option<(nat, string)> := None;
    var latestUsage: Option<Usage> := None;
    var completion: Option<RecordedDecision> := None;
    var decisions: map<string, RecordedDecision> := map[];
    var interrupted := false;
    var index := 0;
    ReplayNothing(request, body.initialSubject);
    while index < |body.events|
      invariant 0 <= index <= |body.events|
      invariant ReplayEvents(request, body.initialSubject, body.events[..index]) ==
                Success(Replay(status, currentSubject, lastMutation, passing, latestUsage, completion, decisions, interrupted))
    {
      var e := body.events[index];
      var st := Replay(status, currentSubject, lastMutation, passing, latestUsage, completion, decisions, interrupted);
      assert body.events[..index + 1] == body.events[..index] + [e];
      ReplayAppend(request, body.initialSubject, body.events[..index], e);
      if e.sequence != index + 1 || e.sequence > MAX_SAFE_INTEGER {
        FailurePersists(request, body.initialSubject, body.events, index + 1);
        return Some(InvalidContract);
      }
      var problem := CheckEvent(request, st, e);
      if problem.Some? {
        FailurePersists(request, body.initialSubject, body.events, index + 1);
        return problem;
      }
      match e {
        case StatusTransition(_, _, to, _) => status := to;
        case EffectDecision(_, id, gate, _, _, decision) =>
          decisions := decisions[id := RecordOf(e)];
          if AuthorizesCompletion(gate, decision) {
            completion := Some(RecordOf(e));
          }
        case Mutation(sequence, _, _, _, after, _) =>
          currentSubject := after;
          lastMutation := sequence;
        case Verification(sequence, subjectDigest, _, _, verdict, _) =>
          if verdict.Pass? && subjectDigest == currentSubject {
            passing := Some((sequence, subjectDigest));
          }
        case UsageRecorded(_, usage) => latestUsage := Some(usage);
        case Interruption(_, _, _, _) => interrupted := true;
        case _ =>
      }
      index := index + 1;
    }
    assert body.events[..index] == body.events;
    result := CheckFinal(request, body, Replay(status, currentSubject, lastMutation, passing, latestUsage, completion, decisions, interrupted));
  }

  /** Once a prefix fails, every longer ledger fails the same way. */
  lemma {:induction false} FailurePersists(request: AgentRunRequest, initialSubject: string, events: seq<RunEvent>, n: nat)
    requires n <= |events| && ReplayEvents(request, initialSubject, events[..n]).Failure?
    ensures ReplayEvents(request, initialSubject, events) == ReplayEvents(request, initialSubject, events[..n])
    decreases |events|
  {
    if n == |events| {
      assert events[..n] == events;
    } else {
      var shorter := events[..|events| - 1];
      assert shorter[..n] == events[..n];
      FailurePersists(request, initialSubject, shorter, n);
    }
  }
}

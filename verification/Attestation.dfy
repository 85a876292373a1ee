/** The second checker: it derives effect order, admission, the mutation chain and usage from a finished receipt. */
module Attestation {
  import opened Text
  import opened Contracts
  import opened UsageArithmetic
  import opened ReceiptChecker
  import opened ResultChecker

  const MAX_EFFECTS: nat := 128
  const MAX_U64: nat := 0xFFFF_FFFF_FFFF_FFFF

  datatype AttestationError =
    | SubjectMismatch
    | InvalidReceipt
    | InterruptionStatusMismatch
    | StaleCompletion
    | EffectLimit
    | MissingEffect
    | EffectSubjectScope
    | InvalidRequest
    | InvalidResult
    | EffectOrderOrSubject
    | EffectDecisionMismatch
    | MissingKnownAttemptUsage
    | ExecutionMismatch
    | GatesNotAdmitted
    | ResultEvidenceMismatch
    | MutationMismatch
    | MutationSubjectMismatch
    | SumOverflow
    | NonSuccessEffect
    | SubjectOrUsageMismatch

  datatype EffectRecord = EffectRecord(request: EffectRequest, result: EffectResult)

  /** The signed claim about one run: its request, its receipt, its effects and a fresh observation of the subject. */
  datatype Statement = Statement(request: AgentRunRequest, receipt: Receipt, effects: seq<EffectRecord>, observed: Subject)

  /** What the pass over the effects carries along. */
  datatype EffectState = EffectState(ids: set<string>, subject: string, sums: Usage)

  function Filter<T>(s: seq<T>, keep: T -> bool): seq<T> {
    if s == [] then []
    else Filter(s[..|s| - 1], keep) + if keep(s[|s| - 1]) then [s[|s| - 1]] else []
  }

  // ---- The order of effects ----

  /** Decisions at the completion boundary name the subject instead of an effect. */
  predicate IsBoundaryDecision(e: RunEvent)
    requires e.EffectDecision?
  {
    && e.gate.WorkflowGate? && e.effectDigest == e.subjectDigest
    && e.decision.code in {Fixed(CompletionAuthorized), Fixed(MutationNotAuthorized), Fixed(VerificationFailed)}
  }

  /** The distinct effect digests in the order of their first decision. */
  function Order(events: seq<RunEvent>): seq<string> {
    if events == [] then []
    else
      var earlier, e := Order(events[..|events| - 1]), events[|events| - 1];
      if e.EffectDecision? && !IsBoundaryDecision(e) && e.effectDigest !in earlier then earlier + [e.effectDigest] else earlier
  }

  /** The loop that collects the order, with its set of digests seen. */
  method CollectOrder(events: seq<RunEvent>) returns (order: seq<string>)
    ensures order == Order(events)
  {
    var seen: set<string> := {};
    order := [];
    var index := 0;
    while index < |events|
      invariant 0 <= index <= |events|
      invariant order == Order(events[..index]) && seen == set d | d in order
    {
      assert events[..index + 1][..index] == events[..index];
      var e := events[index];
      index := index + 1;
      if e.EffectDecision? && !IsBoundaryDecision(e) && e.effectDigest !in seen {
        seen := seen + {e.effectDigest};
        order := order + [e.effectDigest];
      }
    }
    assert events[..index] == events;
  }

  // ---- One effect ----

  function DecisionsOf(events: seq<RunEvent>, digest: string): seq<RunEvent> {
    Filter(events, (e: RunEvent) => e.EffectDecision? && e.effectDigest == digest)
  }

  function ExecutionsOf(events: seq<RunEvent>, digest: string): seq<RunEvent> {
    Filter(events, (e: RunEvent) => e.ToolExecution? && e.executedDigest == digest)
  }

  function MutationsOf(events: seq<RunEvent>, digest: string): seq<RunEvent> {
    Filter(events, (e: RunEvent) => e.Mutation? && e.mutatedDigest == digest)
  }

  function RequiredGates(effectClass: EffectClass): set<Gate> {
    {PermissionGate, ToolTrustGate, RuntimeGate} + if effectClass.MutationEffect? then {WorkflowGate} else {}
  }

  predicate Admits(e: RunEvent, gate: Gate, executionSequence: nat) {
    && e.EffectDecision? && e.gate == gate && e.sequence < executionSequence
    && (gate.WorkflowGate? ==> e.decision.code == Fixed(MutationAuthorized))
  }

  /** Every decision about the effect allows it for its subject, and every required gate decided before the execution. */
  predicate IsAdmittedBy(decisions: seq<RunEvent>, request: EffectRequest, executionSequence: nat) {
    && (forall e | e in decisions ::
          e.EffectDecision? && e.subjectDigest == request.subject.digest && e.decision.outcome.Allow?)
    && (forall gate | gate in RequiredGates(request.effectClass) ::
          exists e | e in decisions :: Admits(e, gate, executionSequence))
  }

  predicate KeepsScope(run: AgentRunRequest, subject: Subject) {
    subject.kind == run.subject.kind && subject.locator == run.subject.locator
  }

  predicate RecordKeepsScope(run: AgentRunRequest, record: EffectRecord) {
    && KeepsScope(run, record.request.subject)
    && KeepsScope(run, record.result.body.preSubject)
    && (record.result.body.postSubject.Some? ==> KeepsScope(run, record.result.body.postSubject.value))
  }

  predicate CitesEvent(e: RunEvent, cited: CitedDecision, digest: string) {
    && e.EffectDecision? && e.decisionId == cited.decisionId && e.gate == cited.gate && e.effectDigest == digest
    && e.subjectDigest == cited.subjectDigest && e.decision == cited.decision
  }

  predicate RetainsResult(e: RunEvent, digest: string, record: EffectRecord) {
    && e.ToolExecution? && e.actionDigest == digest && e.capabilityDigest == record.request.capability.digest
    && e.executionDecisionId == record.result.body.cited.decisionId
    && exists r | r in e.evidence :: r.evidenceType == ToolExecutionEvidence && r.digest == record.result.digest
  }

  /** The number of executions, or mutations, that a ledger must hold. */
  function Expected(condition: bool): nat {
    if condition then 1 else 0
  }

  predicate ExpectsMutation(record: EffectRecord) {
    record.result.body.status.IsAttempt() && record.request.effectClass.MutationEffect? && record.result.body.postSubject.Some?
  }

  /** What the ledger must say about one effect; the result is the subject after it. */
  function CheckLedgerOf(events: seq<RunEvent>, digest: string, record: EffectRecord, subject: string): Result<string, AttestationError> {
    var body := record.result.body;
    var executions := ExecutionsOf(events, digest);
    var mutations := MutationsOf(events, digest);
    if !exists e | e in events :: CitesEvent(e, body.cited, digest) then Failure(EffectDecisionMismatch)
    else if body.status.IsAttempt() && body.usage.toolCalls == 0 then Failure(MissingKnownAttemptUsage)
    else if |executions| != Expected(body.status.IsAttempt()) then Failure(ExecutionMismatch)
    else if executions != [] && !IsAdmittedBy(DecisionsOf(events, digest), record.request, executions[0].sequence) then Failure(GatesNotAdmitted)
    else if executions != [] && !RetainsResult(executions[0], digest, record) then Failure(ResultEvidenceMismatch)
    else if |mutations| != Expected(ExpectsMutation(record)) then Failure(MutationMismatch)
    else if mutations == [] then Success(subject)
    else
      var m := mutations[0];
      if !m.Mutation? || m.before != subject || body.postSubject.None? || m.after != body.postSubject.value.digest then Failure(MutationSubjectMismatch)
      else Success(m.after)
  }

  function CheckEffect(
    support: ContractSupport, run: AgentRunRequest, receipt: ReceiptBody, order: seq<string>, index: nat, st: EffectState, record: EffectRecord)
    : Result<EffectState, AttestationError>
    requires index < |order|
  {
    var request, result := record.request, record.result;
    if !RecordKeepsScope(run, record) then Failure(EffectSubjectScope)
    else if CheckEffectRequest(support, run, request).Some? then Failure(InvalidRequest)
    else if !VerifyResult(support, run, request, result) then Failure(InvalidResult)
    else
      var digest := support.hashes.effect(request);
      if digest != order[index] || request.effectId in st.ids || request.effectSequence != index + 1 || request.subject.digest != st.subject then
        Failure(EffectOrderOrSubject)
      else
        match CheckLedgerOf(receipt.events, digest, record, st.subject)
        case Failure(error) => Failure(error)
        case Success(subject) =>
          var sums := Plus(st.sums, result.body.usage);
          if !AtMost(sums, Usage(MAX_U64, MAX_U64, MAX_U64, MAX_U64)) then Failure(SumOverflow)
          else if receipt.terminalStatus == Completed && !result.body.status.Executed? then Failure(NonSuccessEffect)
          else Success(EffectState(st.ids + {request.effectId}, subject, sums))
  }

  function CheckEffectsFrom(
    support: ContractSupport, run: AgentRunRequest, receipt: ReceiptBody, order: seq<string>, effects: seq<EffectRecord>)
    : Result<EffectState, AttestationError>
    requires |effects| <= |order|
  {
    if effects == [] then Success(EffectState({}, run.subject.digest, ZERO_USAGE))
    else
      var last := |effects| - 1;
      match CheckEffectsFrom(support, run, receipt, order, effects[..last])
      case Failure(error) => Failure(error)
      case Success(st) => CheckEffect(support, run, receipt, order, last, st, effects[last])
  }

  function CheckEffects(support: ContractSupport, run: AgentRunRequest, receipt: ReceiptBody, effects: seq<EffectRecord>): Option<AttestationError> {
    var order := Order(receipt.events);
    if |effects| > MAX_EFFECTS then Some(EffectLimit)
    else if |order| != |effects| then Some(MissingEffect)
    else
      match CheckEffectsFrom(support, run, receipt, order, effects)
      case Failure(error) => Some(error)
      case Success(st) =>
        if st.subject != receipt.resultingSubject || !AtMost(st.sums, receipt.usage) then Some(SubjectOrUsageMismatch) else None
  }

  /** The checker's own pass: one loop for the order, one over the effects. */
  method ValidateEffects(support: ContractSupport, run: AgentRunRequest, receipt: ReceiptBody, effects: seq<EffectRecord>)
    returns (result: Option<AttestationError>)
    ensures result == CheckEffects(support, run, receipt, effects)
  {
    hide CheckEffect, Order;
    if |effects| > MAX_EFFECTS {
      return Some(EffectLimit);
    }
    var order := CollectOrder(receipt.events);
    if |order| != |effects| {
      return Some(MissingEffect);
    }
    var ids: set<string> := {};
    var currentSubject := run.subject.digest;
    var sums := ZERO_USAGE;
    var index := 0;
    while index < |effects|
      invariant 0 <= index <= |effects|
      invariant CheckEffectsFrom(support, run, receipt, order, effects[..index]) == Success(EffectState(ids, currentSubject, sums))
    {
      assert effects[..index + 1][..index] == effects[..index];
      var checked := CheckEffect(support, run, receipt, order, index, EffectState(ids, currentSubject, sums), effects[index]);
      index := index + 1;
      if checked.Failure? {
        EffectFailurePersists(support, run, receipt, order, effects, index);
        return Some(checked.error);
      }
      ids, currentSubject, sums := checked.value.ids, checked.value.subject, checked.value.sums;
    }
    assert effects[..index] == effects;
    if currentSubject != receipt.resultingSubject || !AtMost(sums, receipt.usage) {
      return Some(SubjectOrUsageMismatch);
    }
    result := None;
  }

  lemma {:induction false} EffectFailurePersists(
    support: ContractSupport, run: AgentRunRequest, receipt: ReceiptBody, order: seq<string>, effects: seq<EffectRecord>, n: nat)
    requires n <= |effects| <= |order| && CheckEffectsFrom(support, run, receipt, order, effects[..n]).Failure?
    ensures CheckEffectsFrom(support, run, receipt, order, effects) == CheckEffectsFrom(support, run, receipt, order, effects[..n])
    decreases |effects|
  {
    hide CheckEffect;
    if n == |effects| {
      assert effects[..n] == effects;
    } else {
      var shorter := effects[..|effects| - 1];
      assert shorter[..n] == effects[..n];
      EffectFailurePersists(support, run, receipt, order, shorter, n);
    }
  }

  /** The checks of a statement before its content is resolved. */
  function CheckStatement(support: ContractSupport, s: Statement): Option<AttestationError> {
    var body := s.receipt.body;
    if !KeepsScope(s.request, s.observed) then Some(SubjectMismatch)
    else if !VerifyReceipt(support, s.request, s.receipt) then Some(InvalidReceipt)
    else if body.terminalStatus != Interrupted && exists e | e in body.events :: e.Interruption? then Some(InterruptionStatusMismatch)
    else if body.terminalStatus == Completed && s.observed.digest != body.resultingSubject then Some(StaleCompletion)
    else CheckEffects(support, s.request, body, s.effects)
  }
}

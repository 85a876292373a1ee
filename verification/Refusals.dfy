/** What the stable error category of a refused document says about it. */
module Refusals {
  import opened Text
  import opened Contracts
  import opened UsageArithmetic
  import opened RuntimeModel
  import opened ReceiptChecker
  import opened ReceiptTrace
  import opened ResultChecker
  import opened EffectResults
  import opened ResultRules

  // ---- Requests ----

  predicate ApprovalMeets(code: ErrorCode, a: Approval, subjectDigest: string) {
    match code
    case InvalidContract =>
      && NonBlank(a.approvalId) && NonBlank(a.actorId) && NonBlank(a.scope)
      && NonBlankOption(a.evidence.locator) && a.evidence.evidenceType == ApprovalEvidence
    case InvalidDigest => IsDigest(a.subjectDigest) && IsDigest(a.evidence.digest)
    case RequestMismatch => a.subjectDigest == subjectDigest
    case _ => true
  }

  predicate PolicyMeets(code: ErrorCode, p: PolicyIdentity, supported: set<PolicyIdentity>) {
    match code
    case InvalidContract => NonBlank(p.name) && NonBlank(p.version)
    case InvalidDigest => IsDigest(p.digest)
    case UnknownPolicy => p in supported
    case _ => true
  }

  /** What each category demands of an agent run request. */
  predicate RequestMeets(code: ErrorCode, supported: set<PolicyIdentity>, r: AgentRunRequest) {
    && (forall p | p in r.policies :: PolicyMeets(code, p, supported))
    && (forall a | a in r.approvals :: ApprovalMeets(code, a, r.subject.digest))
    && match code
       case UnsupportedSchema => r.schemaVersion == AGENT_RUN_REQUEST_SCHEMA
       case InvalidDigest => IsDigest(r.subject.digest) && IsDigest(r.requestedCapability.digest)
       case InvalidContract =>
         && NonBlank(r.requestId) && NonBlank(r.runId) && NonBlank(r.subject.locator)
         && NonBlank(r.requestedCapability.name) && NonBlank(r.requestedCapability.version)
         && NonBlank(r.instructions) && (forall c | c in r.constraints :: NonBlank(c))
         && r.policies != [] && IsUnique(r.policies) && BudgetIsSafe(r.budget)
         && r.requiredEvidence != []
         && (forall t | t in r.requiredEvidence :: t in {CommandOutput, ArtifactEvidence, VerificationAttestation})
       case _ => true
  }

  /** A valid request meets every category. */
  lemma ValidRequestMeetsAll(supported: set<PolicyIdentity>, r: AgentRunRequest)
    ensures RequestIsValid(supported, r) <==> forall code: ErrorCode :: RequestMeets(code, supported, r)
  {
    hide IsDigest, NonBlank, BudgetIsSafe, IsUnique;
    if forall code: ErrorCode :: RequestMeets(code, supported, r) {
      assert RequestMeets(UnsupportedSchema, supported, r) && RequestMeets(InvalidDigest, supported, r) && RequestMeets(InvalidContract, supported, r);
      assert RequestMeets(UnknownPolicy, supported, r) && RequestMeets(RequestMismatch, supported, r);
      forall p | p in r.policies ensures IdentityIsValid(p) && p in supported {
        assert PolicyMeets(InvalidContract, p, supported) && PolicyMeets(InvalidDigest, p, supported) && PolicyMeets(UnknownPolicy, p, supported);
      }
      forall a | a in r.approvals ensures ApprovalIsValid(a) && a.subjectDigest == r.subject.digest {
        assert ApprovalMeets(InvalidContract, a, r.subject.digest) && ApprovalMeets(InvalidDigest, a, r.subject.digest);
        assert ApprovalMeets(RequestMismatch, a, r.subject.digest);
      }
    }
  }

  lemma {:induction false} PoliciesRefuse(policies: seq<PolicyIdentity>, seen: set<PolicyIdentity>, supported: set<PolicyIdentity>)
    ensures var c := CheckPolicies(policies, seen, supported);
            c.Some? ==>
              || (exists p | p in policies :: !PolicyMeets(c.value, p, supported))
              || (c.value == InvalidContract && (!IsUnique(policies) || exists p | p in policies :: p in seen))
  {
    hide IsDigest, NonBlank;
    if policies != [] {
      PoliciesRefuse(policies[1..], seen + {policies[0]}, supported);
      UniqueFirst(policies);
      assert policies == [policies[0]] + policies[1..];
      assert policies[0] in policies;
    }
  }

  lemma {:induction false} ApprovalsRefuse(approvals: seq<Approval>, subjectDigest: string)
    ensures var c := CheckRunApprovals(approvals, subjectDigest);
            c.Some? ==> exists a | a in approvals :: !ApprovalMeets(c.value, a, subjectDigest)
  {
    hide IsDigest, NonBlank;
    if approvals != [] {
      ApprovalsRefuse(approvals[1..], subjectDigest);
      assert approvals == [approvals[0]] + approvals[1..];
      assert approvals[0] in approvals;
    }
  }

  /** A refused request fails what its category demands. */
  lemma RequestRefusalIsTrue(supported: set<PolicyIdentity>, r: AgentRunRequest)
    requires CheckRequest(r, supported).Some?
    ensures !RequestMeets(CheckRequest(r, supported).value, supported, r)
  {
    hide IsDigest, NonBlank, IsUnique, PolicyMeets, ApprovalMeets;
    PoliciesRefuse(r.policies, {}, supported);
    ApprovalsRefuse(r.approvals, r.subject.digest);
  }

  // ---- Effect requests ----

  /** What each category demands of an effect request under a valid run; an approval of another subject is malformed here. */
  predicate EffectMeets(code: ErrorCode, support: ContractSupport, run: AgentRunRequest, e: EffectRequest) {
    && (forall a | a in e.approvals :: code != RequestMismatch ==> ApprovalMeets(code, a, e.subject.digest))
    && match code
       case UnsupportedSchema => e.schemaVersion == PROTECTED_EFFECT_REQUEST_SCHEMA
       case InvalidDigest =>
         && IsDigest(e.runRequestDigest) && IsDigest(e.subject.digest) && IsDigest(e.capability.digest)
         && (e.toolSchemaDigest.Some? ==> IsDigest(e.toolSchemaDigest.value))
         && IsDigest(e.inputDigest) && IsDigest(e.budgetDigest) && IsDigest(e.sandboxProfile.digest)
       case RequestMismatch =>
         && e.runId == run.runId && e.runRequestDigest == support.hashes.request(run) && e.capability == run.requestedCapability
         && e.policies == run.policies && e.budgetDigest == support.hashes.budget(run.budget)
       case InvalidContract =>
         && NonBlank(e.effectId) && 1 <= e.effectSequence <= MAX_SAFE_INTEGER && NonBlank(e.runId) && NonBlank(e.subject.locator)
         && NonBlank(e.normalizedOperation) && OperationIsNormalized(e.family, e.normalizedOperation)
         && NonBlank(e.capability.name) && NonBlank(e.capability.version)
         && MetadataIsValid(e.metadata) && e.scopes != [] && (forall s | s in e.scopes :: ScopeIsValid(s))
         && (forall a | a in e.approvals :: a.subjectDigest == e.subject.digest) && IsUnique(ApprovalIds(e.approvals))
         && NonBlank(e.sandboxProfile.name) && NonBlank(e.sandboxProfile.version) && NonBlank(e.idempotencyKey)
       case _ => true
  }

  lemma ValidEffectMeetsAll(support: ContractSupport, run: AgentRunRequest, e: EffectRequest)
    requires RequestIsValid(support.policies, run)
    ensures EffectIsValid(support, run, e) <==> forall code: ErrorCode :: EffectMeets(code, support, run, e)
  {
    hide IsDigest, NonBlank, IsUnique, MetadataIsValid, ScopeIsValid, OperationIsNormalized, RequestIsValid;
    if forall code: ErrorCode :: EffectMeets(code, support, run, e) {
      assert EffectMeets(UnsupportedSchema, support, run, e) && EffectMeets(InvalidDigest, support, run, e);
      assert EffectMeets(InvalidContract, support, run, e) && EffectMeets(RequestMismatch, support, run, e);
      forall a | a in e.approvals ensures ApprovalIsValid(a) && a.subjectDigest == e.subject.digest {
        assert ApprovalMeets(InvalidContract, a, e.subject.digest) && ApprovalMeets(InvalidDigest, a, e.subject.digest);
      }
    }
  }

  lemma {:induction false} EffectApprovalsRefuse(approvals: seq<Approval>, seen: set<string>, subjectDigest: string)
    ensures var c := CheckEffectApprovals(approvals, seen, subjectDigest);
            c.Some? ==>
              || (c.value != RequestMismatch && exists a | a in approvals :: !ApprovalMeets(c.value, a, subjectDigest))
              || (c.value == InvalidContract
                  && (!IsUnique(ApprovalIds(approvals)) || exists a | a in approvals :: a.subjectDigest != subjectDigest || a.approvalId in seen))
  {
    hide IsDigest, NonBlank, IsUnique;
    if approvals != [] {
      EffectApprovalsRefuse(approvals[1..], seen + {approvals[0].approvalId}, subjectDigest);
      FirstApproval(approvals);
      assert approvals == [approvals[0]] + approvals[1..];
      assert approvals[0] in approvals;
    }
  }

  /** A refused effect request fails what its category demands. */
  lemma EffectRefusalIsTrue(support: ContractSupport, run: AgentRunRequest, e: EffectRequest)
    requires CheckRequest(run, support.policies).None? && CheckEffectRequest(support, run, e).Some?
    ensures !EffectMeets(CheckEffectRequest(support, run, e).value, support, run, e)
  {
    hide CheckRequest, IsDigest, NonBlank, IsUnique, ApprovalMeets, MetadataIsValid, ScopeIsValid, OperationIsNormalized;
    hide CheckOperation, CheckMetadata, CheckScopes, CheckEffectApprovals;
    EffectApprovalsRefuse(e.approvals, {}, e.subject.digest);
  }

  // ---- Receipts ----

  predicate EvidenceDigests(evidence: seq<Evidence>) {
    forall e | e in evidence :: IsDigest(e.digest)
  }

  predicate EvidenceTexts(evidence: seq<Evidence>) {
    evidence != [] && forall e | e in evidence :: NonBlankOption(e.locator)
  }

  lemma {:induction false} EvidenceItemsRefuse(evidence: seq<Evidence>)
    ensures CheckEvidenceItems(evidence).None? || CheckEvidenceItems(evidence).value in {InvalidDigest, InvalidContract}
    ensures CheckEvidenceItems(evidence) == Some(InvalidDigest) ==> exists e | e in evidence :: !IsDigest(e.digest)
    ensures CheckEvidenceItems(evidence) == Some(InvalidContract) ==> exists e | e in evidence :: !NonBlankOption(e.locator)
  {
    hide IsDigest, NonBlank;
    if evidence != [] {
      EvidenceItemsRefuse(evidence[1..]);
      assert evidence == [evidence[0]] + evidence[1..];
      assert evidence[0] in evidence;
    }
  }

  lemma EvidenceSetRefuses(evidence: seq<Evidence>)
    ensures var c := CheckEvidenceSet(evidence);
            c.Some? ==> if c.value == InvalidDigest then !EvidenceDigests(evidence) else c.value == InvalidContract && !EvidenceTexts(evidence)
  {
    hide IsDigest, NonBlankOption, CheckEvidenceItems;
    EvidenceItemsRefuse(evidence);
  }

  /** What each category demands of the i-th event where it stands. */
  predicate EventMeets(code: ErrorCode, request: AgentRunRequest, initial: string, events: seq<RunEvent>, i: nat)
    requires i < |events|
  {
    var e, subject := events[i], SubjectAt(initial, events, i);
    match code
    case InvalidTransition => e.StatusTransition? ==> e.from == StatusAt(events, i) && e.to in NextStatuses(e.from)
    case UnauthorizedEffect =>
      && (e.ToolExecution? ==> Authorized(events, i, e.executionDecisionId, e.executedDigest, subject, PermissionGate))
      && (e.Mutation? ==> Authorized(events, i, e.mutationDecisionId, e.mutatedDigest, subject, WorkflowGate))
    case RequestMismatch => e.ToolExecution? ==> e.capabilityDigest == request.requestedCapability.digest
    case InvalidDigest =>
      (match e
       case PlanRecorded(_, planDigest) => IsDigest(planDigest)
       case ApprovalRecorded(_, approval) => IsDigest(approval.subjectDigest) && IsDigest(approval.evidence.digest)
       case EffectDecision(_, _, _, effectDigest, subjectDigest, _) => IsDigest(effectDigest) && IsDigest(subjectDigest)
       case ToolExecution(_, _, effectDigest, actionDigest, capabilityDigest, evidence) =>
         IsDigest(effectDigest) && IsDigest(actionDigest) && IsDigest(capabilityDigest) && EvidenceDigests(evidence)
       case Mutation(_, _, effectDigest, before, after, evidence) =>
         IsDigest(effectDigest) && IsDigest(before) && IsDigest(after) && EvidenceDigests(evidence)
       case Verification(_, subjectDigest, _, _, _, evidence) => IsDigest(subjectDigest) && EvidenceDigests(evidence)
       case Interruption(_, _, _, evidence) => IsDigest(evidence.digest)
       case _ => true)
    case InvalidContract =>
      && e.sequence == i + 1 <= MAX_SAFE_INTEGER
      && (match e
          case StatusTransition(_, _, _, reason) => reason.Some? ==> PhraseIsNonBlank(reason.value)
          case PlanRecorded(_, _) => true
          case ApprovalRecorded(_, approval) => ApprovalMeets(InvalidContract, approval, "")
          case EffectDecision(_, id, _, _, subjectDigest, decision) =>
            && NonBlank(id) && subjectDigest == subject && PhraseIsNonBlank(decision.code)
            && (forall p | p in decision.effects :: PhraseIsNonBlank(p)) && IdIsFresh(events, i, id)
          case ToolExecution(_, id, _, _, _, evidence) =>
            NonBlank(id) && EvidenceTexts(evidence) && exists x | x in evidence :: x.evidenceType == ToolExecutionEvidence
          case Mutation(_, id, _, before, _, evidence) =>
            NonBlank(id) && before == subject && EvidenceTexts(evidence) && exists x | x in evidence :: x.evidenceType == ArtifactEvidence
          case Verification(_, _, implementerId, verifierId, verdict, evidence) =>
            && NonBlank(implementerId) && NonBlank(verifierId) && EvidenceTexts(evidence)
            && (verdict.Pass? ==>
                  implementerId != verifierId && forall t | t in request.requiredEvidence :: exists x | x in evidence :: x.evidenceType == t)
          case UsageRecorded(_, usage) => UsageIsSafe(usage) && (UsageAt(events, i).Some? ==> AtMost(UsageAt(events, i).value, usage))
          case Interruption(_, actorId, why, evidence) =>
            && NonBlankOption(actorId) && PhraseIsNonBlank(why) && NonBlankOption(evidence.locator)
            && evidence.evidenceType == InterruptionEvidence)
    case _ => true
  }

  /** A legal event meets every category. */
  lemma LegalEventMeetsAll(request: AgentRunRequest, initial: string, events: seq<RunEvent>, i: nat)
    requires i < |events|
    ensures EventIsLegal(request, initial, events, i) <==>
            && EventMeets(InvalidTransition, request, initial, events, i) && EventMeets(UnauthorizedEffect, request, initial, events, i)
            && EventMeets(RequestMismatch, request, initial, events, i) && EventMeets(InvalidDigest, request, initial, events, i)
            && EventMeets(InvalidContract, request, initial, events, i)
  {
    hide IsDigest, NonBlank, PhraseIsNonBlank, Authorized, IdIsFresh, NextStatuses, SubjectAt, StatusAt, UsageAt;
  }

  lemma EventRefusalIsTrue(request: AgentRunRequest, initial: string, events: seq<RunEvent>, n: nat, st: Replay)
    requires n < |events| && Describes(st, initial, events, n)
    requires forall i | 0 <= i < n :: events[i].sequence == i + 1
    ensures var step := Step(request, st, n, events[n]); step.Failure? ==> !EventMeets(step.error, request, initial, events, n)
  {
    hide IsDigest, NonBlank, PhraseIsNonBlank, SubjectAt, StatusAt, UsageAt, CheckEvidenceSet, PassingIs, CompletionIs, LastMutationIs;
    var e := events[n];
    match e {
      case StatusTransition(_, from, to, _) =>
        TransitionsAreMoves(from, to);
      case EffectDecision(_, id, _, _, _, _) =>
        assert id !in st.decisions <==> IdIsFresh(events, n, id);
      case ToolExecution(_, id, effectDigest, _, _, evidence) =>
        AuthorizationMeans(st, initial, events, n, id, effectDigest, PermissionGate);
        EvidenceSetRefuses(evidence);
      case Mutation(_, id, effectDigest, _, _, evidence) =>
        AuthorizationMeans(st, initial, events, n, id, effectDigest, WorkflowGate);
        EvidenceSetRefuses(evidence);
      case Verification(_, _, _, _, _, evidence) =>
        EvidenceSetRefuses(evidence);
      case _ =>
    }
  }

  /** The first event that the pass refuses. */
  lemma {:induction false} ReplayRefusesAt(request: AgentRunRequest, initial: string, events: seq<RunEvent>, n: nat) returns (i: nat)
    requires n <= |events| && ReplayEvents(request, initial, events[..n]).Failure?
    ensures i < n && ReplayEvents(request, initial, events[..i]).Success?
    ensures Step(request, ReplayEvents(request, initial, events[..i]).value, i, events[i]) == Failure(ReplayEvents(request, initial, events[..n]).error)
  {
    hide Step;
    assert events[..n][..n - 1] == events[..n - 1];
    if ReplayEvents(request, initial, events[..n - 1]).Failure? {
      i := ReplayRefusesAt(request, initial, events, n - 1);
    } else {
      i := n - 1;
    }
  }

  /** What each category demands of a receipt for a valid request. */
  ghost predicate ReceiptMeets(code: ErrorCode, support: ContractSupport, request: AgentRunRequest, body: ReceiptBody) {
    var initial, events, n, final := body.initialSubject, body.events, |body.events|, body.resultingSubject;
    && (forall i | 0 <= i < n :: EventMeets(code, request, initial, events, i))
    && match code
       case UnsupportedSchema => body.schemaVersion == TERMINAL_RUN_RECEIPT_SCHEMA
       case RequestMismatch =>
         && body.requestId == request.requestId && body.runId == request.runId && body.requestDigest == support.hashes.request(request)
         && initial == request.subject.digest && final == SubjectAt(initial, events, n)
       case InvalidDigest => IsDigest(final)
       case InvalidTransition => n > 0 ==> events[n - 1].StatusTransition? && events[n - 1].to == body.terminalStatus
       case InvalidContract =>
         && body.terminalStatus in {Completed, Blocked, Failed, Interrupted} && PhraseIsNonBlank(body.terminalReason)
         && UsageIsSafe(body.usage) && n > 0 && UsageAt(events, n) == Some(body.usage)
         && (body.terminalStatus == Interrupted ==> exists i | 0 <= i < n :: events[i].Interruption?)
         && (if body.terminalStatus == Completed then WithinBudget(body.usage, request.budget) else forall i | 0 <= i < n :: !Completes(events[i]))
       case StaleVerification =>
         body.terminalStatus == Completed ==>
           exists v | 0 <= v < n ::
             && events[v].Verification? && events[v].verdict == Pass && events[v].verifiedSubject == final
             && forall k | v < k < n :: !events[k].Mutation?
       case UnauthorizedEffect =>
         body.terminalStatus == Completed ==> exists v, c | 0 <= v < c < n :: CompletionIsProved(initial, events, final, v, c)
       case _ => true
  }

  lemma LegalEventMeets(request: AgentRunRequest, initial: string, events: seq<RunEvent>, i: nat, code: ErrorCode)
    requires i < |events| && EventIsLegal(request, initial, events, i)
    ensures EventMeets(code, request, initial, events, i)
  {
    LegalEventMeetsAll(request, initial, events, i);
    hide EventIsLegal;
    match code {
      case InvalidTransition =>
      case UnauthorizedEffect =>
      case RequestMismatch =>
      case InvalidDigest =>
      case InvalidContract =>
      case _ =>
    }
  }

  lemma LegalReceiptMeets(support: ContractSupport, request: AgentRunRequest, body: ReceiptBody, code: ErrorCode)
    requires IsLegalTrace(support, request, body)
    ensures ReceiptMeets(code, support, request, body)
  {
    hide IsDigest, PhraseIsNonBlank, EventIsLegal, EventMeets, RequestIsValid, SubjectAt, UsageAt, CompletionIsProved;
    var events := body.events;
    forall i | 0 <= i < |events| ensures EventMeets(code, request, body.initialSubject, events, i) {
      LegalEventMeets(request, body.initialSubject, events, i, code);
    }
    if body.terminalStatus == Completed {
      var v, c :| 0 <= v < c < |events| && CompletionIsProved(body.initialSubject, events, body.resultingSubject, v, c);
      ProofVerifies(body, v, c);
    }
    match code {
      case UnsupportedSchema =>
      case RequestMismatch =>
      case InvalidDigest =>
      case InvalidTransition =>
      case InvalidContract =>
      case StaleVerification =>
      case UnauthorizedEffect =>
      case _ =>
    }
  }

  /** The receipts of a valid request that meet every category are the legal ones. */
  lemma LegalReceiptMeetsAll(support: ContractSupport, request: AgentRunRequest, body: ReceiptBody)
    requires RequestIsValid(support.policies, request)
    ensures IsLegalTrace(support, request, body) <==> forall code: ErrorCode :: ReceiptMeets(code, support, request, body)
  {
    hide IsDigest, PhraseIsNonBlank, EventIsLegal, EventMeets, RequestIsValid, SubjectAt, UsageAt, CompletionIsProved;
    if IsLegalTrace(support, request, body) {
      forall code: ErrorCode ensures ReceiptMeets(code, support, request, body) {
        LegalReceiptMeets(support, request, body, code);
      }
    }
    if forall code: ErrorCode :: ReceiptMeets(code, support, request, body) {
      assert ReceiptMeets(UnsupportedSchema, support, request, body) && ReceiptMeets(RequestMismatch, support, request, body);
      assert ReceiptMeets(InvalidDigest, support, request, body) && ReceiptMeets(InvalidTransition, support, request, body);
      assert ReceiptMeets(InvalidContract, support, request, body) && ReceiptMeets(UnauthorizedEffect, support, request, body);
      forall i | 0 <= i < |body.events| ensures EventIsLegal(request, body.initialSubject, body.events, i) {
        LegalEventMeetsAll(request, body.initialSubject, body.events, i);
      }
    }
  }

  lemma ProofVerifies(body: ReceiptBody, v: nat, c: nat)
    requires v < c < |body.events| && CompletionIsProved(body.initialSubject, body.events, body.resultingSubject, v, c)
    ensures body.events[v].Verification? && body.events[v].verdict == Pass && body.events[v].verifiedSubject == body.resultingSubject
    ensures forall k | v < k < |body.events| :: !body.events[k].Mutation?
  {
  }

  /** A stale pass variable means that no verification still stands. */
  lemma StaleMeansStale(request: AgentRunRequest, body: ReceiptBody, st: Replay)
    requires Describes(st, body.initialSubject, body.events, |body.events|) && st.subject == body.resultingSubject
    requires !(st.passing.Some? && st.passing.value.0 > st.lastMutation && st.passing.value.1 == st.subject)
    ensures forall v | 0 <= v < |body.events| && body.events[v].Verification? && body.events[v].verdict == Pass && body.events[v].verifiedSubject == body.resultingSubject ::
              exists k | v < k < |body.events| :: body.events[k].Mutation?
  {
    hide DecisionsDescribe, CompletionIs;
    var events, n := body.events, |body.events|;
    forall v | 0 <= v < n && events[v].Verification? && events[v].verdict == Pass && events[v].verifiedSubject == body.resultingSubject
      ensures exists k | v < k < n :: events[k].Mutation?
    {
      if forall k | v < k < n :: !events[k].Mutation? {
        SubjectIsStable(body.initialSubject, events, v, n);
        assert VerifiesCurrent(body.initialSubject, events, v);
        var p := st.passing.value.0 - 1;
        SubjectIsStable(body.initialSubject, events, p, n);
      }
    }
  }

  lemma FinalRefusalIsTrue(support: ContractSupport, request: AgentRunRequest, body: ReceiptBody, st: Replay)
    requires body.events != [] && Describes(st, body.initialSubject, body.events, |body.events|)
    requires forall i | 0 <= i < |body.events| :: EventIsLegal(request, body.initialSubject, body.events, i)
    requires CheckFinal(request, body, st).Some?
    ensures !ReceiptMeets(CheckFinal(request, body, st).value, support, request, body)
  {
    hide EventIsLegal, EventMeets, DecisionsDescribe, LastMutationIs, PassingIs, CompletionIs, CompletionIsProved, IsDigest;
    if st.subject == body.resultingSubject && body.terminalStatus == Completed {
      CompletionIsLegality(request, body, st);
      if !(st.passing.Some? && st.passing.value.0 > st.lastMutation && st.passing.value.1 == st.subject) {
        StaleMeansStale(request, body, st);
      }
    }
    CompletionsAreSeen(body.initialSubject, body.events, st);
  }

  lemma CompletionsAreSeen(initial: string, events: seq<RunEvent>, st: Replay)
    requires Describes(st, initial, events, |events|)
    ensures st.completion.Some? ==> exists i | 0 <= i < |events| :: Completes(events[i])
  {
    hide DecisionsDescribe, LastMutationIs, PassingIs;
    if st.completion.Some? {
      assert Completes(events[st.completion.value.sequence - 1]);
    }
  }

  /** A refused receipt of a valid request fails what its category demands. */
  lemma ReceiptRefusalIsTrue(support: ContractSupport, request: AgentRunRequest, body: ReceiptBody)
    requires CheckRequest(request, support.policies).None? && CheckReceiptBody(support, request, body).Some?
    ensures !ReceiptMeets(CheckReceiptBody(support, request, body).value, support, request, body)
  {
    hide CheckRequest, IsDigest, PhraseIsNonBlank, EventIsLegal, Describes, CheckFinal, Step, ReplayEvents, CompletionIsProved;
    var initial, events, n := body.initialSubject, body.events, |body.events|;
    assert events[..n] == events;
    if CheckHeader(support, request, body).None? {
      hide EventMeets;
      if ReplayEvents(request, initial, events).Failure? {
        var i := ReplayRefusesAt(request, initial, events, n);
        ReplayIsLegality(request, initial, events, i);
        forall k | 0 <= k < i ensures events[k].sequence == k + 1 {
          LegalSequence(request, initial, events, k);
        }
        EventRefusalIsTrue(request, initial, events, i, ReplayEvents(request, initial, events[..i]).value);
      } else {
        ReplayIsLegality(request, initial, events, n);
        FinalRefusalIsTrue(support, request, body, ReplayEvents(request, initial, events).value);
      }
    }
  }

  // ---- Results ----

  predicate IsDecline(body: ResultBody) {
    body.status in {AuthorityAwaited, Denied}
  }

  predicate IdentityTexts(i: Option<Identity>) {
    i.Some? && NonBlank(i.value.name) && NonBlank(i.value.version)
  }

  /** What each category demands of a result for an admissible request. */
  predicate ResultMeets(code: ErrorCode, support: ContractSupport, request: EffectRequest, body: ResultBody) {
    var cited, digest := body.cited, support.hashes.effect(request);
    match code
    case UnsupportedSchema => body.schemaVersion == PROTECTED_EFFECT_RESULT_SCHEMA
    case RequestMismatch =>
      && body.effectId == request.effectId && body.effectSequence == request.effectSequence
      && body.runId == request.runId && body.runRequestDigest == request.runRequestDigest && body.capability == request.capability
      && body.effectDigest == digest && cited.effectDigest == digest && cited.subjectDigest == body.preSubject.digest
      && (body.status != Denied ==> body.preSubject == request.subject && body.toolSchemaDigest == request.toolSchemaDigest)
      && (!IsDecline(body) && body.sandboxProfile.Some? ==> body.sandboxProfile.value == request.sandboxProfile)
    case UnauthorizedEffect =>
      if IsDecline(body) then
        && body.postSubject.None? && body.exit.None? && body.executor.None? && body.sandboxProfile.None?
        && body.usage.cost == body.usage.elapsed == body.usage.tokens == body.usage.toolCalls == 0
        && forall e | e in body.evidence :: e.evidenceType in {SubjectObservation, CapabilitySchema}
      else cited.gate == PermissionGate && cited.decision.outcome == Allow
    case InvalidDigest =>
      && IsDigest(body.runRequestDigest) && IsDigest(body.effectDigest) && IsDigest(body.preSubject.digest)
      && IsDigest(body.capability.digest) && (body.toolSchemaDigest.Some? ==> IsDigest(body.toolSchemaDigest.value))
      && (body.postSubject.Some? ==> IsDigest(body.postSubject.value.digest))
      && IsDigest(cited.effectDigest) && IsDigest(cited.subjectDigest)
      && (forall e | e in body.evidence :: IsDigest(e.digest))
      && (!IsDecline(body) ==>
            && (body.executor.Some? ==> IsDigest(body.executor.value.digest))
            && (body.sandboxProfile.Some? ==> IsDigest(body.sandboxProfile.value.digest)))
    case InvalidContract =>
      && NonBlank(body.effectId) && body.effectSequence <= MAX_SAFE_INTEGER && NonBlank(body.runId) && NonBlank(body.preSubject.locator)
      && IdentityTexts(Some(body.capability)) && (body.postSubject.Some? ==> NonBlank(body.postSubject.value.locator))
      && NonBlank(cited.decisionId) && PhraseIsNonBlank(cited.decision.code) && (forall p | p in cited.decision.effects :: PhraseIsNonBlank(p))
      && UsageIsSafe(body.usage) && (forall e | e in body.evidence :: NonBlankOption(e.locator)) && IsUnique(body.evidence)
      && (request.family.Process? || (body.exit.None? && forall e | e in body.evidence :: e.evidenceType != ExitEvidence))
      && (if IsDecline(body) then
            && cited.decision.outcome == (if body.status == Denied then Block else Ask)
            && body.reason.Some? && PhraseIsNonBlank(body.reason.value)
            && (body.status == Denied || body.preSubject == request.subject ==> DriftIsTold(request, body))
          else IdentityTexts(body.executor) && IdentityTexts(body.sandboxProfile) && ObservationFits(request, ObservationOf(body)))
    case _ => true
  }

  /** A legal result of an admissible request meets every category. */
  lemma LegalResultMeets(support: ContractSupport, run: AgentRunRequest, request: EffectRequest, body: ResultBody, code: ErrorCode)
    requires EffectIsSound(run, request) && NamesRequest(support, request, body) && CitesFittingDecision(support, request, body)
    requires if IsDecline(body) then DeclineIsLegal(request, body) else AttemptIsLegal(request, body)
    ensures ResultMeets(code, support, request, body)
  {
    hide IsDigest, NonBlank, PhraseIsNonBlank;
    match code {
      case UnsupportedSchema =>
      case RequestMismatch =>
      case UnauthorizedEffect =>
      case InvalidDigest =>
      case InvalidContract =>
      case _ =>
    }
  }

  lemma {:induction false} EffectEvidenceRefuses(evidence: seq<EffectEvidence>)
    ensures CheckEffectEvidence(evidence).None? || CheckEffectEvidence(evidence).value in {InvalidDigest, InvalidContract}
    ensures CheckEffectEvidence(evidence) == Some(InvalidDigest) ==> exists e | e in evidence :: !IsDigest(e.digest)
    ensures CheckEffectEvidence(evidence) == Some(InvalidContract) ==> (exists e | e in evidence :: !NonBlankOption(e.locator)) || !IsUnique(evidence)
  {
    hide IsDigest, NonBlank;
    hide IsUnique;
    if evidence != [] {
      var last := |evidence| - 1;
      EffectEvidenceRefuses(evidence[..last]);
      assert evidence[last] in evidence && forall e | e in evidence[..last] :: e in evidence;
      if IsUnique(evidence) {
        UniqueLast(evidence);
      }
    }
  }

  lemma UniqueLast(evidence: seq<EffectEvidence>)
    requires evidence != [] && IsUnique(evidence)
    ensures var last := |evidence| - 1; IsUnique(evidence[..last]) && evidence[last] !in evidence[..last]
  {
  }

  lemma DeclineRefusalIsTrue(support: ContractSupport, request: EffectRequest, body: ResultBody)
    requires IsDecline(body) && CheckStatusMatrix(request, body).Some?
    ensures !ResultMeets(CheckStatusMatrix(request, body).value, support, request, body)
  {
    hide IsDigest, NonBlank, PhraseIsNonBlank, UsageIsSafe, IsUnique, DriftIsTold;
    assert (forall e | e in body.evidence :: e.evidenceType in {SubjectObservation, CapabilitySchema}) ==> Kinds(body.evidence) <= {SubjectObservation, CapabilitySchema};
    assert body.usage.cost == body.usage.elapsed == body.usage.tokens == body.usage.toolCalls == 0 ==> body.usage == ZERO_USAGE;
  }

  lemma DriftRefusalIsTrue(support: ContractSupport, request: EffectRequest, body: ResultBody)
    ensures var c := CheckDrift(body, body.preSubject != request.subject, body.toolSchemaDigest != request.toolSchemaDigest);
            c.Some? && body.capability == request.capability ==> !ResultMeets(c.value, support, request, body)
  {
    hide IsDigest, NonBlank, PhraseIsNonBlank, UsageIsSafe, IsUnique, PostSubjectFits, ExitFits;
    assert Kinds(body.evidence) == set e | e in body.evidence :: e.evidenceType;
  }

  lemma PlaceRefuses(request: EffectRequest, body: ResultBody)
    ensures var c := CheckAttemptCommon(request, body);
            && (c.None? ==> body.executor.Some? && IdentityIsValid(body.executor.value) && body.sandboxProfile == Some(request.sandboxProfile))
            && (c.Some? ==>
                  match c.value
                  case InvalidDigest =>
                    || (body.executor.Some? && !IsDigest(body.executor.value.digest))
                    || (body.sandboxProfile.Some? && !IsDigest(body.sandboxProfile.value.digest))
                  case RequestMismatch => body.sandboxProfile.Some? && body.sandboxProfile.value != request.sandboxProfile
                  case InvalidContract =>
                    || !IdentityTexts(body.executor) || !IdentityTexts(body.sandboxProfile)
                    || !({ExecutorEvidence, SandboxEvidence, UsageEvidence} <= Kinds(body.evidence))
                  case _ => false)
  {
    hide IsDigest, NonBlank, Kinds;
  }

  /** The matrix says that an attempt is malformed only when its place or its report is. */
  lemma MatrixCodes(request: EffectRequest, body: ResultBody)
    requires !IsDecline(body) && body.cited.decision.outcome.Allow?
    ensures var c := CheckStatusMatrix(request, body);
            c.Some? ==>
              || c == CheckAttemptCommon(request, body)
              || (c.value == InvalidContract && (CheckAttemptCommon(request, body).None? || !ReasonFits(ObservationOf(body))))
  {
    hide CheckAttemptCommon, CheckKnownPostEffect, Kinds, PhraseIsNonBlank;
    PostEffectRefusal(request, body);
  }

  /** An attempt that is refused for its status does not show what it must. */
  lemma AttemptRefusalIsTrue(support: ContractSupport, request: EffectRequest, body: ResultBody)
    requires !IsDecline(body) && IdentityIsValid(request.sandboxProfile)
    requires body.postSubject.Some? ==> SubjectIsValid(body.postSubject.value)
    requires CheckOperationSpecific(request, body).None? && CheckStatusMatrix(request, body).Some?
    ensures !ResultMeets(CheckStatusMatrix(request, body).value, support, request, body)
  {
    hide IsDigest, NonBlank, PhraseIsNonBlank, UsageIsSafe, IsUnique, Kinds, SubjectIsValid, CheckOperationSpecific, PostSubjectFits, ExitFits;
    hide CheckAttemptCommon, CheckExecuted, CheckKnownAttempt, CheckUnknownAttempt, IdentityIsValid;
    var o := ObservationOf(body);
    if body.cited.decision.outcome.Allow? {
      PlaceRefuses(request, body);
      MatrixCodes(request, body);
      if CheckAttemptCommon(request, body).None? && ObservationFits(request, o) {
        StatusMatrixPassesExactly(request, body, o);
      }
    }
  }

  lemma PostEffectRefusal(request: EffectRequest, body: ResultBody)
    ensures var c := CheckKnownPostEffect(request, body); c.Some? ==> c.value == InvalidContract
  {
    hide Kinds;
  }

  lemma IdentityRefuses(support: ContractSupport, run: AgentRunRequest, request: EffectRequest, body: ResultBody)
    requires EffectIsSound(run, request)
    ensures var c := CheckResultIdentity(request, support.hashes.effect(request), body);
            c.Some? ==> !ResultMeets(c.value, support, request, body)
    ensures var c := CheckCitedDecision(support.hashes.effect(request), body);
            c.Some? ==> !ResultMeets(c.value, support, request, body)
    ensures var c := CheckObservedIdentities(body);
            c.Some? ==> !ResultMeets(c.value, support, request, body)
  {
    hide IsDigest, NonBlank, PhraseIsNonBlank, UsageIsSafe, IsUnique, ObservationFits, DriftIsTold;
  }

  lemma PartsRefuse(support: ContractSupport, request: EffectRequest, body: ResultBody)
    ensures var c := CheckUsage(body.usage); c.Some? ==> !ResultMeets(c.value, support, request, body)
    ensures var c := CheckEffectEvidence(body.evidence); c.Some? ==> !ResultMeets(c.value, support, request, body)
    ensures var c := CheckOperationSpecific(request, body); c.Some? ==> !ResultMeets(c.value, support, request, body)
    ensures body.capability != request.capability ==> !ResultMeets(RequestMismatch, support, request, body)
  {
    hide IsDigest, NonBlank, PhraseIsNonBlank, IsUnique, ObservationFits, DriftIsTold;
    EffectEvidenceRefuses(body.evidence);
    assert Kinds(body.evidence) == set e | e in body.evidence :: e.evidenceType;
  }

  /** A refused result of an admissible request fails what its category demands. */
  lemma ResultRefusalIsTrue(support: ContractSupport, run: AgentRunRequest, request: EffectRequest, body: ResultBody)
    requires CheckEffectRequest(support, run, request).None? && CheckResultBody(support, run, request, body).Some?
    ensures !ResultMeets(CheckResultBody(support, run, request, body).value, support, request, body)
  {
    hide CheckEffectRequest, CheckResultIdentity, CheckCitedDecision, CheckUsage, CheckEffectEvidence, CheckOperationSpecific, CheckDrift;
    hide CheckStatusMatrix, ResultMeets, IdentityIsValid, SubjectIsValid, IsDigest, NonBlank;
    IdentityRefuses(support, run, request, body);
    PartsRefuse(support, request, body);
    DriftRefusalIsTrue(support, request, body);
    AdmittedSandbox(support, run, request);
    if CheckOperationSpecific(request, body).None? && CheckObservedIdentities(body).None? && CheckStatusMatrix(request, body).Some? {
      if IsDecline(body) {
        DeclineRefusalIsTrue(support, request, body);
      } else {
        AttemptRefusalIsTrue(support, request, body);
      }
    }
  }

  /** The results of an admissible request that meet every category are the legal ones. */
  lemma LegalResultMeetsAll(support: ContractSupport, run: AgentRunRequest, request: EffectRequest, body: ResultBody)
    requires EffectIsValid(support, run, request)
    ensures ResultIsLegal(support, run, request, body) <==> forall code: ErrorCode :: ResultMeets(code, support, request, body)
  {
    hide CheckEffectRequest, CheckResultBody, EffectIsValid, ResultMeets, NamesRequest, CitesFittingDecision, DeclineIsLegal, AttemptIsLegal;
    assert ValidateEffectRequest(support, run, request).Success? && EffectIsSound(run, request);
    CheckerDecidesResult(support, run, request, body);
    if ResultIsLegal(support, run, request, body) {
      forall code: ErrorCode ensures ResultMeets(code, support, request, body) {
        LegalResultMeets(support, run, request, body, code);
      }
    } else {
      ResultRefusalIsTrue(support, run, request, body);
    }
  }
}

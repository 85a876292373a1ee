/** The contract data model and the semantic checks of Agent Run Requests and Protected Effect Requests. */
module Contracts {
  import opened Text

  const MAX_SAFE_INTEGER: nat := 9007199254740991

  const AGENT_RUN_REQUEST_SCHEMA := "gaap.agent-run-request/0.1.0"
  const TERMINAL_RUN_RECEIPT_SCHEMA := "gaap.terminal-run-receipt/0.1.0"
  const PROTECTED_EFFECT_REQUEST_SCHEMA := "gaap.protected-effect-request/0.1.0"
  const PROTECTED_EFFECT_RESULT_SCHEMA := "gaap.protected-effect-result/0.1.0"

  const MAX_METADATA_ENTRIES: nat := 32
  const MAX_METADATA_NAME_CHARS: nat := 64
  const MAX_METADATA_VALUE_CHARS: nat := 256

  datatype ErrorCode =
    | UnsupportedSchema
    | UnknownPolicy
    | InvalidDigest
    | InvalidContract
    | InvalidTransition
    | UnauthorizedEffect
    | StaleVerification
    | RequestMismatch

  /** The outcome of a check: nothing, or the stable category of the first failure. */
  type Check = Option<ErrorCode>

  datatype SubjectKind = Repository | Artifact

  datatype Subject = Subject(kind: SubjectKind, locator: string, digest: string)

  /** A name and version bound to a content digest. */
  datatype Identity = Identity(name: string, version: string, digest: string)

  type CapabilityIdentity = Identity
  type PolicyIdentity = Identity
  type ExecutorIdentity = Identity
  type SandboxProfileIdentity = Identity

  datatype ResourceBudget = ResourceBudget(maxCost: nat, maxElapsed: nat, maxTokens: nat, maxToolCalls: nat)

  /** Cumulative usage of a run, or the usage of one effect: both have these four counters. */
  datatype Usage = Usage(cost: nat, elapsed: nat, tokens: nat, toolCalls: nat)

  datatype EvidenceType =
    | ApprovalEvidence
    | CommandOutput
    | ArtifactEvidence
    | ToolExecutionEvidence
    | VerificationAttestation
    | ResourceUsageEvidence
    | InterruptionEvidence

  datatype Evidence = Evidence(evidenceType: EvidenceType, digest: string, locator: Option<string>)

  datatype Approval = Approval(approvalId: string, actorId: string, scope: string, subjectDigest: string, evidence: Evidence)

  datatype AgentRunRequest = AgentRunRequest(
    schemaVersion: string,
    requestId: string,
    runId: string,
    subject: Subject,
    requestedCapability: CapabilityIdentity,
    instructions: string,
    constraints: seq<string>,
    policies: seq<PolicyIdentity>,
    budget: ResourceBudget,
    approvals: seq<Approval>,
    requiredEvidence: seq<EvidenceType>)

  datatype RunStatus =
    | Accepted
    | Planning
    | AwaitingAuthority
    | Executing
    | Verifying
    | Completed
    | Blocked
    | Failed
    | Interrupted
  {
    predicate IsTerminal() {
      this in {Completed, Blocked, Failed, Interrupted}
    }
  }

  datatype Verdict = Pass | Fail

  datatype Gate = PlanGate | PermissionGate | ToolTrustGate | VerificationGate | RuntimeGate | WorkflowGate

  datatype Outcome = Allow | Ask | Block

  /** The fixed codes, labels and reasons that the repository writes. */
  datatype Word =
    | PlanInvalidInput | PlanApprovalRequired | PlanStaleApproval | PlanApprovedExact
    | PermissionInvalidInput | PermissionDenied | PermissionApprovedException | PermissionDangerous | PermissionWrapper
    | PermissionPolicyAsks | PermissionPolicyAllowed | PermissionUnknownAction
    | ToolTrustInvalidInput | ToolTrustApprovalRequired | ToolTrustStaleApproval | ToolTrustApprovedExact
    | VerificationInvalidInput | VerificationReportRequired | VerificationIndependenceRequired | VerificationStaleSubject
    | VerificationEvidenceRequired | VerificationPassRequired | VerificationPassed
    | RuntimeInvalidInput | RuntimeInvalidBudget | RuntimeUsageUnknown | RuntimeHardStop | RuntimeOverageApproved
    | RuntimeApprovalRequired | RuntimeWarning | RuntimeWithinBudget
    | WorkflowInvalidInput | MutationBlocked | MutationRequiresApproval | MutationAuthorized
    | MutationNotAuthorized | VerificationFailed | CompletionAuthorized
    | StopMutation | RequestNewPlanApproval | StopAction | RecordActionApproval | RequestActionApproval
    | StopCapabilityActivation | RequestNewCapabilityApproval | StopCompletion | RequestNewVerification | RecordVerificationReceipt
    | StopExecution | RequestUsageReconciliation | NotifyOperator | RecordOverageApproval | RequestOverageApproval
    | PauseMutation | RecordMutationAuthorization | RecordCompletion | RecordDeclinedEffect | RequestExecutorAuthority
    | StaleSubject | CapabilitySchemaDrift | SubjectAndSchemaDrift
    | EffectSequenceInvalid | MaxEffectsExhausted | DuplicateEffect | BudgetExceeded | UsageOverflow
    | ExecutorNotDispatched | ExecutorAwaitingAuthority | ExecutorDenied | ExecutorFailed
    | UntrustedSandbox | UntrustedExecutor | EffectAwaitsAuthority | EffectWasDenied | EffectHasFailed | EffectWasInterrupted | EffectOutcomeUnknown | InvalidEffectRequest
    | AdapterPlanFailed | PlanInvalidDigest | AdapterNextEffectFailed | RuntimeInterrupted
    | VerifierFailed | UntrustedVerifier | InvalidReport | CompletionCheckFailed | CompletionClaimFailed

  /** A text of the contracts: a fixed word, a fixed word followed by `: ` and another text, or any text
      that spells neither. */
  datatype Phrase = Fixed(word: Word) | Prefixed(tag: Word, rest: Phrase) | Verbatim(text: string)

  /** Fixed words and prefixed messages are never blank. */
  predicate PhraseIsNonBlank(p: Phrase) {
    p.Verbatim? ==> NonBlank(p.text)
  }

  datatype Decision = Decision(outcome: Outcome, code: Phrase, effects: seq<Phrase>)

  datatype RunEvent =
    | StatusTransition(sequence: nat, from: RunStatus, to: RunStatus, reason: Option<Phrase>)
    | PlanRecorded(sequence: nat, planDigest: string)
    | ApprovalRecorded(sequence: nat, approval: Approval)
    | EffectDecision(sequence: nat, decisionId: string, gate: Gate, effectDigest: string, subjectDigest: string, decision: Decision)
    | ToolExecution(sequence: nat, executionDecisionId: string, executedDigest: string, actionDigest: string, capabilityDigest: string, evidence: seq<Evidence>)
    | Mutation(sequence: nat, mutationDecisionId: string, mutatedDigest: string, before: string, after: string, evidence: seq<Evidence>)
    | Verification(sequence: nat, verifiedSubject: string, implementerId: string, verifierId: string, verdict: Verdict, evidence: seq<Evidence>)
    | UsageRecorded(sequence: nat, usage: Usage)
    | Interruption(sequence: nat, actorId: Option<string>, why: Phrase, interruptionEvidence: Evidence)

  datatype ReceiptBody = ReceiptBody(
    schemaVersion: string,
    requestId: string,
    runId: string,
    requestDigest: string,
    initialSubject: string,
    resultingSubject: string,
    terminalStatus: RunStatus,
    terminalReason: Phrase,
    usage: Usage,
    events: seq<RunEvent>)

  datatype Receipt = Receipt(digest: string, body: ReceiptBody)

  datatype OperationFamily = Filesystem | Process | Network | ExternalService

  datatype MetadataEntry = MetadataEntry(name: string, value: string)

  datatype FilesystemAccess = ReadAccess | CreateAccess | ModifyAccess | DeleteAccess

  datatype RequestedScope =
    | FilesystemScope(root: string, access: seq<FilesystemAccess>, recursive: bool)
    | ProcessScope(executable: string, workingDirectory: string)
    | NetworkScope(protocol: nat, host: string, port: nat)
    | ServiceScope(service: string, operation: string, resource: string)

  datatype EffectClass = ObservationEffect | MutationEffect

  datatype EffectRequest = EffectRequest(
    schemaVersion: string,
    effectId: string,
    effectSequence: nat,
    runId: string,
    runRequestDigest: string,
    subject: Subject,
    family: OperationFamily,
    normalizedOperation: string,
    capability: CapabilityIdentity,
    toolSchemaDigest: Option<string>,
    inputDigest: string,
    metadata: seq<MetadataEntry>,
    scopes: seq<RequestedScope>,
    policies: seq<PolicyIdentity>,
    approvals: seq<Approval>,
    budgetDigest: string,
    sandboxProfile: SandboxProfileIdentity,
    idempotencyKey: string,
    effectClass: EffectClass)

  /** The coordinator decision that a result cites, bound to one request and one subject. */
  datatype CitedDecision = CitedDecision(decisionId: string, gate: Gate, effectDigest: string, subjectDigest: string, decision: Decision)

  datatype ExecutionStatus = Executed | AuthorityAwaited | Denied | EffectFailed | EffectInterrupted | UnknownOutcome
  {
    /** Every status except the two that say nothing was dispatched. */
    predicate IsAttempt() {
      this !in {AuthorityAwaited, Denied}
    }
  }

  datatype EffectExit = ExitCode(code: int) | ExitSignal(signal: string)

  datatype EffectEvidenceType =
    | ExitEvidence
    | OutputEvidence
    | ArtifactChange
    | MutationEvidence
    | UsageEvidence
    | ExecutorEvidence
    | SandboxEvidence
    | FailureEvidence
    | InterruptedEvidence
    | SubjectObservation
    | CapabilitySchema
    | UnknownOutcomeEvidence

  datatype EffectEvidence = EffectEvidence(evidenceType: EffectEvidenceType, digest: string, locator: Option<string>)

  datatype ResultBody = ResultBody(
    schemaVersion: string,
    effectId: string,
    effectSequence: nat,
    runId: string,
    runRequestDigest: string,
    effectDigest: string,
    preSubject: Subject,
    capability: CapabilityIdentity,
    toolSchemaDigest: Option<string>,
    cited: CitedDecision,
    status: ExecutionStatus,
    postSubject: Option<Subject>,
    exit: Option<EffectExit>,
    usage: Usage,
    executor: Option<ExecutorIdentity>,
    sandboxProfile: Option<SandboxProfileIdentity>,
    reason: Option<Phrase>,
    evidence: seq<EffectEvidence>)

  datatype EffectResult = EffectResult(digest: string, body: ResultBody)

  /** The byte strings that the engine hashes besides whole documents. */
  datatype Label =
    | EvidenceLabel(name: string)
    | UnverifiedExecutor(executor: Option<ExecutorIdentity>)
    | KnownAttempt(effectDigest: string)
    | InterruptionLabel(reason: Phrase)
    | MissingArtifact
    | InterruptedEffect

  /** Canonicalisation followed by SHA-256, one arbitrary function for each kind of document. */
  datatype Hashes = Hashes(
    request: AgentRunRequest -> string,
    budget: ResourceBudget -> string,
    effect: EffectRequest -> string,
    result: ResultBody -> string,
    receipt: ReceiptBody -> string,
    tagged: Label -> string)
  {
    /** All that is assumed of hashing: its output is a well-formed digest. */
    ghost predicate WellFormed() {
      && (forall r :: IsDigest(request(r)))
      && (forall b :: IsDigest(budget(b)))
      && (forall e :: IsDigest(effect(e)))
      && (forall r :: IsDigest(result(r)))
      && (forall b :: IsDigest(receipt(b)))
      && (forall l :: IsDigest(tagged(l)))
    }
  }

  /** The policies a caller supports, with the hashing both sides use. */
  datatype ContractSupport = ContractSupport(policies: set<PolicyIdentity>, hashes: Hashes)

  predicate IdentityIsValid(i: Identity) {
    NonBlank(i.name) && NonBlank(i.version) && IsDigest(i.digest)
  }

  predicate SubjectIsValid(s: Subject) {
    NonBlank(s.locator) && IsDigest(s.digest)
  }

  predicate EvidenceIsValid(e: Evidence) {
    IsDigest(e.digest) && NonBlankOption(e.locator)
  }

  predicate EvidenceSetIsValid(evidence: seq<Evidence>) {
    evidence != [] && forall e | e in evidence :: EvidenceIsValid(e)
  }

  predicate HasEvidence(evidence: seq<Evidence>, kind: EvidenceType) {
    exists e | e in evidence :: e.evidenceType == kind
  }

  predicate BudgetIsSafe(b: ResourceBudget) {
    b.maxCost <= MAX_SAFE_INTEGER && b.maxElapsed <= MAX_SAFE_INTEGER && b.maxTokens <= MAX_SAFE_INTEGER && b.maxToolCalls <= MAX_SAFE_INTEGER
  }

  /** Digest checks report a different category from blank-text checks, so their order shows. */
  function CheckText(s: string): Check {
    if NonBlank(s) then None else Some(InvalidContract)
  }

  function CheckPhrase(p: Phrase): Check {
    if PhraseIsNonBlank(p) then None else Some(InvalidContract)
  }

  function CheckPhrases(ps: seq<Phrase>): (c: Check)
    ensures c.None? <==> forall p | p in ps :: PhraseIsNonBlank(p)
    ensures c.Some? ==> c.value == InvalidContract
  {
    if exists p | p in ps :: !PhraseIsNonBlank(p) then Some(InvalidContract) else None
  }

  function CheckDigest(s: string): Check {
    if IsDigest(s) then None else Some(InvalidDigest)
  }

  function CheckSafe(n: nat): Check {
    if n <= MAX_SAFE_INTEGER then None else Some(InvalidContract)
  }

  /** The first failure of two checks run in order. */
  function Then(first: Check, second: Check): Check {
    if first.Some? then first else second
  }

  function Require(condition: bool, code: ErrorCode): Check {
    if condition then None else Some(code)
  }

  function CheckIdentity(i: Identity): (c: Check)
    ensures c.None? <==> IdentityIsValid(i)
  {
    Then(CheckText(i.name), Then(CheckText(i.version), CheckDigest(i.digest)))
  }

  function CheckSubject(s: Subject): (c: Check)
    ensures c.None? <==> SubjectIsValid(s)
  {
    Then(CheckText(s.locator), CheckDigest(s.digest))
  }

  function CheckEvidence(e: Evidence): (c: Check)
    ensures c.None? <==> EvidenceIsValid(e)
  {
    Then(CheckDigest(e.digest), if e.locator.Some? then CheckText(e.locator.value) else None)
  }

  function CheckEvidenceItems(evidence: seq<Evidence>): (c: Check)
    ensures c.None? <==> forall e | e in evidence :: EvidenceIsValid(e)
  {
    if evidence == [] then None
    else
      assert evidence == [evidence[0]] + evidence[1..];
      Then(CheckEvidence(evidence[0]), CheckEvidenceItems(evidence[1..]))
  }

  function CheckEvidenceSet(evidence: seq<Evidence>): (c: Check)
    ensures c.None? <==> EvidenceSetIsValid(evidence)
  {
    if evidence == [] then Some(InvalidContract) else CheckEvidenceItems(evidence)
  }

  function CheckUsage(u: Usage): (c: Check)
    ensures c.None? <==> u.cost <= MAX_SAFE_INTEGER && u.elapsed <= MAX_SAFE_INTEGER && u.tokens <= MAX_SAFE_INTEGER && u.toolCalls <= MAX_SAFE_INTEGER
  {
    Then(CheckSafe(u.cost), Then(CheckSafe(u.elapsed), Then(CheckSafe(u.tokens), CheckSafe(u.toolCalls))))
  }

  predicate ApprovalIsValid(a: Approval) {
    && NonBlank(a.approvalId) && NonBlank(a.actorId) && NonBlank(a.scope) && IsDigest(a.subjectDigest)
    && EvidenceIsValid(a.evidence) && a.evidence.evidenceType == ApprovalEvidence
  }

  /** The text and digest fields every approval check starts with. */
  function CheckApprovalFields(a: Approval): Check {
    Then(CheckText(a.approvalId), Then(CheckText(a.actorId), Then(CheckText(a.scope), CheckDigest(a.subjectDigest))))
  }

  function CheckRecordedApproval(a: Approval): (c: Check)
    ensures c.None? <==> ApprovalIsValid(a)
  {
    Then(CheckApprovalFields(a), Then(CheckEvidence(a.evidence), Require(a.evidence.evidenceType == ApprovalEvidence, InvalidContract)))
  }

  // ---- Agent Run Requests ----

  predicate IsUnique<T(==)>(items: seq<T>) {
    forall i, j | 0 <= i < j < |items| :: items[i] != items[j]
  }

  lemma UniqueFirst<T>(items: seq<T>)
    requires items != []
    ensures IsUnique(items) <==> IsUnique(items[1..]) && items[0] !in items[1..]
  {
    assert items == [items[0]] + items[1..];
  }

  function CheckTexts(texts: seq<string>): (c: Check)
    ensures c.None? <==> forall t | t in texts :: NonBlank(t)
    ensures c.Some? ==> c.value == InvalidContract
  {
    if texts == [] then None
    else
      assert forall t :: t in texts <==> t == texts[0] || t in texts[1..];
      Then(CheckText(texts[0]), CheckTexts(texts[1..]))
  }

  function CheckPolicies(policies: seq<PolicyIdentity>, seen: set<PolicyIdentity>, supported: set<PolicyIdentity>): (c: Check)
    ensures c.None? <==>
            (forall p | p in policies :: IdentityIsValid(p) && p in supported && p !in seen) && IsUnique(policies)
  {
    if policies == [] then None
    else
      assert policies == [policies[0]] + policies[1..];
      UniqueFirst(policies);
      Then(CheckIdentity(policies[0]),
      Then(Require(policies[0] !in seen, InvalidContract),
      Then(Require(policies[0] in supported, UnknownPolicy),
           CheckPolicies(policies[1..], seen + {policies[0]}, supported))))
  }

  function CheckRunApproval(a: Approval, subjectDigest: string): Check {
    Then(CheckApprovalFields(a),
    Then(Require(a.subjectDigest == subjectDigest, RequestMismatch),
    Then(Require(a.evidence.evidenceType == ApprovalEvidence, InvalidContract), CheckEvidence(a.evidence))))
  }

  function CheckRunApprovals(approvals: seq<Approval>, subjectDigest: string): (c: Check)
    ensures c.None? <==> forall a | a in approvals :: ApprovalIsValid(a) && a.subjectDigest == subjectDigest
  {
    if approvals == [] then None
    else
      assert approvals == [approvals[0]] + approvals[1..];
      Then(CheckRunApproval(approvals[0], subjectDigest), CheckRunApprovals(approvals[1..], subjectDigest))
  }

  function CheckRequiredEvidence(types: seq<EvidenceType>): Check {
    Then(Require(types != [], InvalidContract),
         Require(forall t | t in types :: t in {CommandOutput, ArtifactEvidence, VerificationAttestation}, InvalidContract))
  }

  function CheckBudget(b: ResourceBudget): (c: Check)
    ensures c.None? <==> BudgetIsSafe(b)
  {
    Then(CheckSafe(b.maxCost), Then(CheckSafe(b.maxElapsed), Then(CheckSafe(b.maxTokens), CheckSafe(b.maxToolCalls))))
  }

  /** What the rest of the model relies on in an accepted request. */
  predicate RequestIsSound(r: AgentRunRequest) {
    && NonBlank(r.requestId) && NonBlank(r.runId)
    && SubjectIsValid(r.subject)
    && IdentityIsValid(r.requestedCapability)
    && BudgetIsSafe(r.budget)
    && forall a | a in r.approvals :: ApprovalIsValid(a) && a.subjectDigest == r.subject.digest
  }

  /** Which requests are accepted. */
  predicate RequestIsValid(supported: set<PolicyIdentity>, r: AgentRunRequest) {
    && r.schemaVersion == AGENT_RUN_REQUEST_SCHEMA
    && RequestIsSound(r)
    && NonBlank(r.instructions) && (forall c | c in r.constraints :: NonBlank(c))
    && r.policies != [] && IsUnique(r.policies) && (forall p | p in r.policies :: IdentityIsValid(p) && p in supported)
    && r.requiredEvidence != [] && (forall t | t in r.requiredEvidence :: t in {CommandOutput, ArtifactEvidence, VerificationAttestation})
  }

  function CheckRequest(r: AgentRunRequest, supported: set<PolicyIdentity>): (c: Check)
    ensures c.None? ==> RequestIsSound(r)
  {
    Then(Require(r.schemaVersion == AGENT_RUN_REQUEST_SCHEMA, UnsupportedSchema),
    Then(CheckText(r.requestId),
    Then(CheckText(r.runId),
    Then(CheckSubject(r.subject),
    Then(CheckIdentity(r.requestedCapability),
    Then(CheckText(r.instructions),
    Then(CheckTexts(r.constraints),
    Then(Require(r.policies != [], InvalidContract),
    Then(CheckPolicies(r.policies, {}, supported),
    Then(CheckBudget(r.budget),
    Then(CheckRunApprovals(r.approvals, r.subject.digest),
         CheckRequiredEvidence(r.requiredEvidence))))))))))))
  }

  function ValidateRequest(support: ContractSupport, r: AgentRunRequest): (result: Result<string, ErrorCode>)
    ensures result.Success? <==> RequestIsValid(support.policies, r)
    ensures result.Success? ==> result.value == support.hashes.request(r) && RequestIsSound(r)
  {
    var c := CheckRequest(r, support.policies);
    if c.Some? then Failure(c.value) else Success(support.hashes.request(r))
  }

  // ---- Protected Effect Requests ----

  function FamilyName(f: OperationFamily): string {
    match f
    case Filesystem => "filesystem"
    case Process => "process"
    case Network => "network"
    case ExternalService => "external_service"
  }

  predicate IsLowerLetter(c: char) {
    'a' <= c <= 'z'
  }

  predicate IsNormalizedSegment(s: string) {
    s != "" && IsLowerLetter(s[0]) && forall c | c in s[1..] :: IsLowerLetter(c) || IsDigit(c) || c == '_'
  }

  /** The pieces of `s` between the separators, as `str::split` gives them. */
  function Split(s: string, separator: char): (pieces: seq<string>)
    ensures pieces != []
  {
    if s == "" then [""]
    else if s[0] == separator then [""] + Split(s[1..], separator)
    else var rest := Split(s[1..], separator); [[s[0]] + rest[0]] + rest[1..]
  }

  /** The text before the first separator, or all of it. */
  function Before(s: string, separator: char): (head: string)
    ensures head == Split(s, separator)[0]
  {
    if s == "" || s[0] == separator then "" else [s[0]] + Before(s[1..], separator)
  }

  lemma {:induction false} SplitsAtSeparator(s: string, separator: char)
    ensures separator in s <==> |Split(s, separator)| > 1
  {
    if s != "" {
      SplitsAtSeparator(s[1..], separator);
      assert s == [s[0]] + s[1..];
    }
  }

  function Join(pieces: seq<string>, separator: char): string
    requires pieces != []
  {
    if |pieces| == 1 then pieces[0] else pieces[0] + [separator] + Join(pieces[1..], separator)
  }

  /** Round trip: the pieces put together again are the text, and none of them holds a separator. */
  lemma {:induction false} SplitJoins(s: string, separator: char)
    ensures Join(Split(s, separator), separator) == s
    ensures forall piece | piece in Split(s, separator) :: separator !in piece
  {
    if s != "" {
      var rest := Split(s[1..], separator);
      SplitJoins(s[1..], separator);
      assert s == [s[0]] + s[1..];
      if s[0] != separator {
        assert ([[s[0]] + rest[0]] + rest[1..])[1..] == rest[1..];
      } else {
        assert ([""] + rest)[1..] == rest;
      }
    }
  }

  predicate OperationIsNormalized(family: OperationFamily, operation: string) {
    var pieces := Split(operation, '.');
    |pieces| > 1 && pieces[0] == FamilyName(family) && forall p | p in pieces :: IsNormalizedSegment(p)
  }

  function CheckCharacters(s: string): (c: Check)
    ensures c.None? <==> forall x | x in s :: IsLowerLetter(x) || IsDigit(x) || x == '_'
    ensures c.Some? ==> c.value == InvalidContract
  {
    if s == "" then None
    else
      assert s == [s[0]] + s[1..];
      Then(Require(IsLowerLetter(s[0]) || IsDigit(s[0]) || s[0] == '_', InvalidContract), CheckCharacters(s[1..]))
  }

  function CheckSegment(s: string): (c: Check)
    ensures c.None? <==> IsNormalizedSegment(s)
    ensures c.Some? ==> c.value == InvalidContract
  {
    if s == "" then Some(InvalidContract)
    else Then(Require(IsLowerLetter(s[0]), InvalidContract), CheckCharacters(s[1..]))
  }

  function CheckSegments(pieces: seq<string>): (c: Check)
    ensures c.None? <==> forall p | p in pieces :: IsNormalizedSegment(p)
    ensures c.Some? ==> c.value == InvalidContract
  {
    if pieces == [] then None
    else
      assert forall p :: p in pieces <==> p == pieces[0] || p in pieces[1..];
      Then(CheckSegment(pieces[0]), CheckSegments(pieces[1..]))
  }

  function CheckOperation(family: OperationFamily, operation: string): (c: Check)
    ensures c.None? <==> OperationIsNormalized(family, operation)
    ensures c.Some? ==> c.value == InvalidContract
  {
    SplitsAtSeparator(operation, '.');
    Then(Require('.' in operation, InvalidContract),
    Then(Require(Before(operation, '.') == FamilyName(family), InvalidContract),
         CheckSegments(Split(operation, '.'))))
  }

  predicate Contains(s: string, part: string) {
    part <= s || (s != "" && Contains(s[1..], part))
  }

  lemma {:induction false} PartIsFound(before: string, part: string, after: string)
    ensures Contains(before + part + after, part)
  {
    var s := before + part + after;
    if before == "" {
      assert s == part + after;
    } else {
      PartIsFound(before[1..], part, after);
      assert s[1..] == before[1..] + part + after;
    }
  }

  lemma {:induction false} FoundIsPart(s: string, part: string) returns (before: string, after: string)
    requires Contains(s, part)
    ensures s == before + part + after
  {
    if part <= s {
      before, after := "", s[|part|..];
      assert s == part + after;
    } else {
      var earlier;
      earlier, after := FoundIsPart(s[1..], part);
      before := [s[0]] + earlier;
      assert s == [s[0]] + s[1..];
    }
  }

  lemma ContainsMeans(s: string, part: string)
    ensures Contains(s, part) <==> exists before: string, after: string :: s == before + part + after
  {
    hide Contains;
    if Contains(s, part) {
      var before, after := FoundIsPart(s, part);
    }
    if before: string, after: string :| s == before + part + after {
      PartIsFound(before, part, after);
    }
  }

  predicate MetadataIsValid(entries: seq<MetadataEntry>) {
    && |entries| <= MAX_METADATA_ENTRIES
    && (forall i | 0 <= i < |entries| ::
          && NonBlank(entries[i].name) && |entries[i].name| <= MAX_METADATA_NAME_CHARS
          && NonBlank(entries[i].value) && |entries[i].value| <= MAX_METADATA_VALUE_CHARS)
    && forall i, j | 0 <= i < j < |entries| :: entries[i].name != entries[j].name
  }

  function CheckBoundedText(s: string, maximum: nat): Check {
    Then(CheckText(s), Require(|s| <= maximum, InvalidContract))
  }

  function CheckEntries(entries: seq<MetadataEntry>, names: set<string>): (c: Check)
    ensures c.None? <==>
            && (forall i | 0 <= i < |entries| ::
                  && NonBlank(entries[i].name) && |entries[i].name| <= 64 && NonBlank(entries[i].value) && |entries[i].value| <= 256
                  && entries[i].name !in names)
            && forall i, j | 0 <= i < j < |entries| :: entries[i].name != entries[j].name
    ensures c.Some? ==> c.value == InvalidContract
  {
    if entries == [] then None
    else
      var first, rest := entries[0], entries[1..];
      assert forall i | 0 <= i < |rest| :: rest[i] == entries[i + 1];
      assert forall i | 1 <= i < |entries| :: entries[i] == rest[i - 1];
      Then(CheckBoundedText(first.name, MAX_METADATA_NAME_CHARS),
      Then(Require(first.name !in names, InvalidContract),
      Then(CheckBoundedText(first.value, MAX_METADATA_VALUE_CHARS),
           CheckEntries(rest, names + {first.name}))))
  }

  function CheckMetadata(entries: seq<MetadataEntry>): (c: Check)
    ensures c.None? <==> MetadataIsValid(entries)
    ensures c.Some? ==> c.value == InvalidContract
  {
    Then(Require(|entries| <= MAX_METADATA_ENTRIES, InvalidContract), CheckEntries(entries, {}))
  }

  predicate ScopeIsValid(scope: RequestedScope) {
    match scope
    case FilesystemScope(root, access, _) =>
      NonBlank(root) && access != [] && forall i, j | 0 <= i < j < |access| :: access[i] != access[j]
    case ProcessScope(executable, directory) => NonBlank(executable) && NonBlank(directory)
    case NetworkScope(_, host, port) =>
      NonBlank(host) && !Contains(host, "://") && (forall c | c in host :: !IsWhitespace(c)) && port != 0
    case ServiceScope(service, operation, resource) => NonBlank(service) && NonBlank(operation) && NonBlank(resource)
  }

  function CheckAccess(access: seq<FilesystemAccess>, classes: set<FilesystemAccess>): (c: Check)
    ensures c.None? <==> (forall a | a in access :: a !in classes) && forall i, j | 0 <= i < j < |access| :: access[i] != access[j]
    ensures c.Some? ==> c.value == InvalidContract
  {
    if access == [] then None
    else
      assert access == [access[0]] + access[1..];
      UniqueFirst(access);
      Then(Require(access[0] !in classes, InvalidContract), CheckAccess(access[1..], classes + {access[0]}))
  }

  function CheckScope(scope: RequestedScope): (c: Check)
    ensures c.None? <==> ScopeIsValid(scope)
    ensures c.Some? ==> c.value == InvalidContract
  {
    match scope
    case FilesystemScope(root, access, _) =>
      Then(CheckText(root), Then(Require(access != [], InvalidContract), CheckAccess(access, {})))
    case ProcessScope(executable, directory) => Then(CheckText(executable), CheckText(directory))
    case NetworkScope(_, host, port) =>
      Then(CheckText(host),
      Then(if Contains(host, "://") || exists i | 0 <= i < |host| :: IsWhitespace(host[i]) then Some(InvalidContract) else None,
           Require(port > 0, InvalidContract)))
    case ServiceScope(service, operation, resource) => Then(CheckText(service), Then(CheckText(operation), CheckText(resource)))
  }

  function CheckScopes(scopes: seq<RequestedScope>): (c: Check)
    ensures c.None? <==> forall s | s in scopes :: ScopeIsValid(s)
    ensures c.Some? ==> c.value == InvalidContract
  {
    if scopes == [] then None
    else
      assert scopes == [scopes[0]] + scopes[1..];
      Then(CheckScope(scopes[0]), CheckScopes(scopes[1..]))
  }

  function ApprovalIds(approvals: seq<Approval>): seq<string> {
    seq(|approvals|, i requires 0 <= i < |approvals| => approvals[i].approvalId)
  }

  function CheckEffectApprovals(approvals: seq<Approval>, seen: set<string>, subjectDigest: string): (c: Check)
    ensures c.None? <==>
            && (forall a | a in approvals :: ApprovalIsValid(a) && a.subjectDigest == subjectDigest && a.approvalId !in seen)
            && IsUnique(ApprovalIds(approvals))
  {
    if approvals == [] then None
    else
      var a := approvals[0];
      assert approvals == [a] + approvals[1..];
      FirstApproval(approvals);
      Then(CheckText(a.approvalId),
      Then(Require(a.approvalId !in seen, InvalidContract),
      Then(CheckApprovalFields(a),
      Then(Require(a.subjectDigest == subjectDigest, InvalidContract),
      Then(CheckEvidence(a.evidence),
      Then(Require(a.evidence.evidenceType == ApprovalEvidence, InvalidContract),
           CheckEffectApprovals(approvals[1..], seen + {a.approvalId}, subjectDigest)))))))
  }

  lemma FirstApproval(approvals: seq<Approval>)
    requires approvals != []
    ensures IsUnique(ApprovalIds(approvals)) <==>
            IsUnique(ApprovalIds(approvals[1..])) && forall a | a in approvals[1..] :: a.approvalId != approvals[0].approvalId
  {
    var ids, rest := ApprovalIds(approvals), approvals[1..];
    assert ids[1..] == ApprovalIds(rest);
    UniqueFirst(ids);
    assert forall i | 0 <= i < |rest| :: ApprovalIds(rest)[i] == rest[i].approvalId;
  }

  /** What an admitted effect request guarantees the engine and both checkers. */
  predicate EffectIsSound(run: AgentRunRequest, e: EffectRequest) {
    && NonBlank(e.effectId)
    && 1 <= e.effectSequence <= MAX_SAFE_INTEGER
    && NonBlank(e.runId)
    && IsDigest(e.runRequestDigest)
    && SubjectIsValid(e.subject)
    && IdentityIsValid(e.capability)
    && e.capability == run.requestedCapability
    && (e.toolSchemaDigest.Some? ==> IsDigest(e.toolSchemaDigest.value))
    && IdentityIsValid(e.sandboxProfile)
    && NonBlank(e.idempotencyKey)
  }

  /** Which effect requests are admitted under a run. */
  predicate EffectIsValid(support: ContractSupport, run: AgentRunRequest, e: EffectRequest) {
    && RequestIsValid(support.policies, run)
    && e.schemaVersion == PROTECTED_EFFECT_REQUEST_SCHEMA
    && EffectIsSound(run, e)
    && e.runId == run.runId && e.runRequestDigest == support.hashes.request(run)
    && OperationIsNormalized(e.family, e.normalizedOperation) && NonBlank(e.normalizedOperation)
    && IsDigest(e.inputDigest) && MetadataIsValid(e.metadata)
    && e.scopes != [] && (forall s | s in e.scopes :: ScopeIsValid(s))
    && e.policies == run.policies
    && (forall a | a in e.approvals :: ApprovalIsValid(a) && a.subjectDigest == e.subject.digest)
    && IsUnique(ApprovalIds(e.approvals))
    && IsDigest(e.budgetDigest) && e.budgetDigest == support.hashes.budget(run.budget)
  }

  function CheckEffectIdentity(run: AgentRunRequest, runDigest: string, e: EffectRequest): Check {
    Then(Require(e.schemaVersion == PROTECTED_EFFECT_REQUEST_SCHEMA, UnsupportedSchema),
    Then(CheckText(e.effectId),
    Then(Require(e.effectSequence != 0, InvalidContract),
    Then(CheckSafe(e.effectSequence),
    Then(CheckText(e.runId),
    Then(Require(e.runId == run.runId, RequestMismatch),
    Then(CheckDigest(e.runRequestDigest),
         Require(e.runRequestDigest == runDigest, RequestMismatch))))))))
  }

  function CheckEffectOperation(run: AgentRunRequest, e: EffectRequest): Check {
    Then(CheckSubject(e.subject),
    Then(CheckText(e.normalizedOperation),
    Then(CheckOperation(e.family, e.normalizedOperation),
    Then(CheckIdentity(e.capability),
    Then(Require(e.capability == run.requestedCapability, RequestMismatch),
    Then(if e.toolSchemaDigest.Some? then CheckDigest(e.toolSchemaDigest.value) else None,
         CheckDigest(e.inputDigest)))))))
  }

  function CheckEffectAuthority(run: AgentRunRequest, budgetDigest: string, e: EffectRequest): Check {
    Then(CheckMetadata(e.metadata),
    Then(Require(e.scopes != [], InvalidContract),
    Then(CheckScopes(e.scopes),
    Then(Require(e.policies == run.policies, RequestMismatch),
    Then(CheckEffectApprovals(e.approvals, {}, e.subject.digest),
    Then(CheckDigest(e.budgetDigest),
    Then(Require(e.budgetDigest == budgetDigest, RequestMismatch),
    Then(CheckIdentity(e.sandboxProfile),
         CheckText(e.idempotencyKey)))))))))
  }

  function CheckEffectRequest(support: ContractSupport, run: AgentRunRequest, e: EffectRequest): (c: Check)
    ensures c.None? ==> EffectIsSound(run, e) && CheckRequest(run, support.policies).None?
  {
    Then(CheckRequest(run, support.policies),
    Then(CheckEffectIdentity(run, support.hashes.request(run), e),
    Then(CheckEffectOperation(run, e),
         CheckEffectAuthority(run, support.hashes.budget(run.budget), e))))
  }

  lemma EffectPassesExactly(support: ContractSupport, run: AgentRunRequest, e: EffectRequest)
    requires CheckRequest(run, support.policies).None? <==> RequestIsValid(support.policies, run)
    ensures CheckEffectRequest(support, run, e).None? <==> EffectIsValid(support, run, e)
  {
    hide CheckRequest, RequestIsValid, IsDigest, NonBlank, IsUnique, MetadataIsValid, ScopeIsValid, OperationIsNormalized, ApprovalIds;
    hide CheckOperation, CheckMetadata, CheckScopes, CheckEffectApprovals, ApprovalIsValid, IdentityIsValid, SubjectIsValid;
  }

  function ValidateEffectRequest(support: ContractSupport, run: AgentRunRequest, e: EffectRequest): (result: Result<string, ErrorCode>)
    ensures result.Success? <==> EffectIsValid(support, run, e)
    ensures result.Success? ==> result.value == support.hashes.effect(e) && EffectIsSound(run, e)
  {
    assert ValidateRequest(support, run).Success? <==> RequestIsValid(support.policies, run);
    EffectPassesExactly(support, run, e);
    var c := CheckEffectRequest(support, run, e);
    if c.Some? then Failure(c.value) else Success(support.hashes.effect(e))
  }
}

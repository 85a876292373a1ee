/** A whole-trace specification of legal receipts, and its equivalence with the one-pass checker. */
module ReceiptTrace {
  import opened Text
  import opened Contracts
  import opened UsageArithmetic
  import opened ReceiptChecker

  // ---- What the ledger says before event `i`, read backwards from `i` ----

  function StatusAt(events: seq<RunEvent>, i: nat): RunStatus
    requires i <= |events|
  {
    if i == 0 then Accepted
    else if events[i - 1].StatusTransition? then events[i - 1].to
    else StatusAt(events, i - 1)
  }

  function SubjectAt(initial: string, events: seq<RunEvent>, i: nat): string
    requires i <= |events|
  {
    if i == 0 then initial
    else if events[i - 1].Mutation? then events[i - 1].after
    else SubjectAt(initial, events, i - 1)
  }

  function UsageAt(events: seq<RunEvent>, i: nat): Option<Usage>
    requires i <= |events|
  {
    if i == 0 then None
    else if events[i - 1].UsageRecorded? then Some(events[i - 1].usage)
    else UsageAt(events, i - 1)
  }

  // ---- Legality of one event ----

  /** Where a run in this status may go next. */
  function NextStatuses(from: RunStatus): set<RunStatus> {
    match from
    case Accepted => {Planning, Blocked, Failed, Interrupted}
    case Planning => {AwaitingAuthority, Executing, Blocked, Failed, Interrupted}
    case AwaitingAuthority => {Planning, Executing, Blocked, Failed, Interrupted}
    case Executing => {AwaitingAuthority, Verifying, Blocked, Failed, Interrupted}
    case Verifying => {Executing, Completed, Blocked, Failed, Interrupted}
    case _ => {}
  }

  lemma TransitionsAreMoves(from: RunStatus, to: RunStatus)
    ensures ValidTransition(from, to) <==> to in NextStatuses(from)
  {
    match from {
      case Accepted =>
      case Planning =>
      case AwaitingAuthority =>
      case Executing =>
      case Verifying =>
      case _ =>
    }
  }

  predicate Allows(e: RunEvent, id: string, effectDigest: string, subject: string, gate: Gate) {
    && e.EffectDecision? && e.decisionId == id && e.effectDigest == effectDigest && e.subjectDigest == subject
    && e.gate == gate && e.decision.outcome.Allow?
  }

  /** An earlier allow decision of the gate covers this effect and this subject. */
  predicate Authorized(events: seq<RunEvent>, i: nat, id: string, effectDigest: string, subject: string, gate: Gate)
    requires i <= |events|
  {
    exists j | 0 <= j < i :: Allows(events[j], id, effectDigest, subject, gate)
  }

  predicate IdIsFresh(events: seq<RunEvent>, i: nat, id: string)
    requires i <= |events|
  {
    forall j | 0 <= j < i && events[j].EffectDecision? :: events[j].decisionId != id
  }

  predicate EventIsLegal(request: AgentRunRequest, initial: string, events: seq<RunEvent>, i: nat)
    requires i < |events|
  {
    var e := events[i];
    var subject := SubjectAt(initial, events, i);
    && e.sequence == i + 1 <= MAX_SAFE_INTEGER
    && match e
       case StatusTransition(_, from, to, reason) =>
         from == StatusAt(events, i) && to in NextStatuses(from) && (reason.Some? ==> PhraseIsNonBlank(reason.value))
       case PlanRecorded(_, planDigest) => IsDigest(planDigest)
       case ApprovalRecorded(_, approval) => ApprovalIsValid(approval)
       case EffectDecision(_, id, _, effectDigest, subjectDigest, decision) =>
         && NonBlank(id) && IsDigest(effectDigest) && IsDigest(subjectDigest) && subjectDigest == subject
         && PhraseIsNonBlank(decision.code) && (forall p | p in decision.effects :: PhraseIsNonBlank(p))
         && IdIsFresh(events, i, id)
       case ToolExecution(_, id, effectDigest, actionDigest, capabilityDigest, evidence) =>
         && NonBlank(id) && IsDigest(effectDigest) && IsDigest(actionDigest) && IsDigest(capabilityDigest)
         && Authorized(events, i, id, effectDigest, subject, PermissionGate)
         && capabilityDigest == request.requestedCapability.digest
         && EvidenceSetIsValid(evidence) && exists e | e in evidence :: e.evidenceType == ToolExecutionEvidence
       case Mutation(_, id, effectDigest, before, after, evidence) =>
         && NonBlank(id) && IsDigest(effectDigest) && IsDigest(before) && IsDigest(after)
         && Authorized(events, i, id, effectDigest, subject, WorkflowGate)
         && before == subject
         && EvidenceSetIsValid(evidence) && exists e | e in evidence :: e.evidenceType == ArtifactEvidence
       case Verification(_, subjectDigest, implementerId, verifierId, verdict, evidence) =>
         && IsDigest(subjectDigest) && NonBlank(implementerId) && NonBlank(verifierId) && EvidenceSetIsValid(evidence)
         && (verdict.Pass? ==>
               implementerId != verifierId && forall t | t in request.requiredEvidence :: exists e | e in evidence :: e.evidenceType == t)
       case UsageRecorded(_, usage) =>
         UsageIsSafe(usage) && (UsageAt(events, i).Some? ==> AtMost(UsageAt(events, i).value, usage))
       case Interruption(_, actorId, why, evidence) =>
         NonBlankOption(actorId) && PhraseIsNonBlank(why) && EvidenceIsValid(evidence) && evidence.evidenceType == InterruptionEvidence
  }

  // ---- Legality of a whole receipt ----

  predicate VerifiesCurrent(initial: string, events: seq<RunEvent>, i: nat)
    requires i < |events|
  {
    events[i].Verification? && events[i].verdict.Pass? && events[i].verifiedSubject == SubjectAt(initial, events, i)
  }

  predicate Completes(e: RunEvent) {
    e.EffectDecision? && e.gate == WorkflowGate && e.decision.outcome == Allow && e.decision.code == Fixed(CompletionAuthorized)
  }

  /** Event `v` verifies the final subject, no mutation follows it, and event `c` then authorises completion of
      that subject; nothing after `c` verifies or authorises again. */
  predicate CompletionIsProved(initial: string, events: seq<RunEvent>, final: string, v: nat, c: nat)
    requires v < c < |events|
  {
    && events[v].Verification? && events[v].verdict.Pass? && events[v].verifiedSubject == final
    && (forall k | v < k < |events| :: !events[k].Mutation?)
    && Completes(events[c]) && events[c].subjectDigest == final && events[c].effectDigest == final
    && (forall k | c < k < |events| :: !Completes(events[k]))
    && (forall k | c < k < |events| :: !VerifiesCurrent(initial, events, k))
  }

  /** The receipt answers this very request, which must itself be acceptable. */
  predicate HeaderIsLegal(support: ContractSupport, request: AgentRunRequest, body: ReceiptBody) {
    && RequestIsValid(support.policies, request)
    && body.schemaVersion == TERMINAL_RUN_RECEIPT_SCHEMA
    && body.requestId == request.requestId && body.runId == request.runId
    && body.requestDigest == support.hashes.request(request)
    && body.initialSubject == request.subject.digest
    && IsDigest(body.resultingSubject)
    && body.terminalStatus in {Completed, Blocked, Failed, Interrupted}
    && PhraseIsNonBlank(body.terminalReason)
    && UsageIsSafe(body.usage)
    && body.events != []
  }

  lemma HeaderPassesExactly(support: ContractSupport, request: AgentRunRequest, body: ReceiptBody)
    ensures CheckHeader(support, request, body).None? <==> HeaderIsLegal(support, request, body)
  {
    hide CheckRequest, RequestIsValid, IsDigest;
    assert ValidateRequest(support, request).Success? <==> RequestIsValid(support.policies, request);
  }

  ghost predicate IsLegalTrace(support: ContractSupport, request: AgentRunRequest, body: ReceiptBody) {
    var n := |body.events|;
    && HeaderIsLegal(support, request, body)
    && (forall i | 0 <= i < n :: EventIsLegal(request, body.initialSubject, body.events, i))
    && body.events[n - 1].StatusTransition? && body.events[n - 1].to == body.terminalStatus
    && SubjectAt(body.initialSubject, body.events, n) == body.resultingSubject
    && UsageAt(body.events, n) == Some(body.usage)
    && (body.terminalStatus == Interrupted ==> exists i | 0 <= i < n :: body.events[i].Interruption?)
    && (if body.terminalStatus == Completed then
          && WithinBudget(body.usage, request.budget)
          && exists v, c | 0 <= v < c < n :: CompletionIsProved(body.initialSubject, body.events, body.resultingSubject, v, c)
        else
          forall i | 0 <= i < n :: !Completes(body.events[i]))
  }

  // ---- The pass's variables describe the trace ----

  predicate DecisionsDescribe(decisions: map<string, RecordedDecision>, events: seq<RunEvent>, n: nat)
    requires n <= |events|
  {
    && (forall j | 0 <= j < n && events[j].EffectDecision? ::
          events[j].decisionId in decisions && decisions[events[j].decisionId] == RecordOf(events[j]))
    && (forall id | id in decisions :: exists j | 0 <= j < n :: events[j].EffectDecision? && events[j].decisionId == id)
  }

  /** `s` is one past the last mutation before `n`, or zero. */
  predicate LastMutationIs(s: nat, events: seq<RunEvent>, n: nat)
    requires n <= |events|
  {
    && s <= n
    && (s > 0 ==> events[s - 1].Mutation?)
    && forall k | s <= k < n :: !events[k].Mutation?
  }

  predicate PassingIs(passing: Option<(nat, string)>, initial: string, events: seq<RunEvent>, n: nat)
    requires n <= |events|
  {
    match passing
    case None => forall k | 0 <= k < n :: !VerifiesCurrent(initial, events, k)
    case Some((s, subject)) =>
      && 0 < s <= n && VerifiesCurrent(initial, events, s - 1) && events[s - 1].verifiedSubject == subject
      && forall k | s <= k < n :: !VerifiesCurrent(initial, events, k)
  }

  predicate CompletionIs(completion: Option<RecordedDecision>, events: seq<RunEvent>, n: nat)
    requires n <= |events|
  {
    match completion
    case None => forall k | 0 <= k < n :: !Completes(events[k])
    case Some(d) =>
      && 0 < d.sequence <= n && Completes(events[d.sequence - 1]) && d == RecordOf(events[d.sequence - 1])
      && forall k | d.sequence <= k < n :: !Completes(events[k])
  }

  predicate Describes(st: Replay, initial: string, events: seq<RunEvent>, n: nat)
    requires n <= |events|
  {
    && st.status == StatusAt(events, n)
    && st.subject == SubjectAt(initial, events, n)
    && st.usage == UsageAt(events, n)
    && (st.interrupted <==> exists j | 0 <= j < n :: events[j].Interruption?)
    && DecisionsDescribe(st.decisions, events, n)
    && LastMutationIs(st.lastMutation, events, n)
    && PassingIs(st.passing, initial, events, n)
    && CompletionIs(st.completion, events, n)
  }

  /** In a described state the pass accepts an event exactly when it is legal where it stands. */
  lemma CheckIsLegality(request: AgentRunRequest, initial: string, events: seq<RunEvent>, n: nat, st: Replay)
    requires n < |events| && Describes(st, initial, events, n)
    requires forall i | 0 <= i < n :: events[i].sequence == i + 1
    ensures Step(request, st, n, events[n]).Success? <==> EventIsLegal(request, initial, events, n)
  {
    var e := events[n];
    match e
    case StatusTransition(_, from, to, _) =>
      TransitionsAreMoves(from, to);
    case EffectDecision(_, id, _, _, _, _) =>
      assert id !in st.decisions <==> IdIsFresh(events, n, id);
    case ToolExecution(s, id, effectDigest, _, _, _) =>
      AuthorizationMeans(st, initial, events, n, id, effectDigest, PermissionGate);
    case Mutation(s, id, effectDigest, _, _, _) =>
      AuthorizationMeans(st, initial, events, n, id, effectDigest, WorkflowGate);
    case _ =>
  }

  lemma AuthorizationMeans(
    st: Replay, initial: string, events: seq<RunEvent>, n: nat, id: string, effectDigest: string, gate: Gate)
    requires n < |events| && Describes(st, initial, events, n)
    requires forall i | 0 <= i < n :: events[i].sequence == i + 1
    ensures id in st.decisions && Permits(st.decisions[id], effectDigest, n + 1, st.subject, gate) <==>
            Authorized(events, n, id, effectDigest, st.subject, gate)
  {
    if id in st.decisions {
      var j :| 0 <= j < n && events[j].EffectDecision? && events[j].decisionId == id;
      assert st.decisions[id] == RecordOf(events[j]);
      if Permits(st.decisions[id], effectDigest, n + 1, st.subject, gate) {
        assert Allows(events[j], id, effectDigest, st.subject, gate);
      }
    }
  }

  /** A step keeps the description. */
  lemma ApplyDescribes(request: AgentRunRequest, initial: string, events: seq<RunEvent>, n: nat, st: Replay)
    requires n < |events| && Describes(st, initial, events, n)
    requires EventIsLegal(request, initial, events, n)
    ensures Describes(Apply(st, events[n]), initial, events, n + 1)
  {
    hide DecisionsDescribe, PassingIs, CompletionIs;
    LegalSequence(request, initial, events, n);
    DecisionIsFresh(request, initial, events, n);
    hide EventIsLegal;
    var e, after := events[n], Apply(st, events[n]);
    DecisionsStep(st, events, n);
    PassingStep(st, initial, events, n);
    CompletionStep(st, events, n);
    assert LastMutationIs(after.lastMutation, events, n + 1);
    assert after.interrupted <==> st.interrupted || e.Interruption?;
  }

  lemma DecisionIsFresh(request: AgentRunRequest, initial: string, events: seq<RunEvent>, n: nat)
    requires n < |events| && EventIsLegal(request, initial, events, n)
    ensures events[n].EffectDecision? ==> IdIsFresh(events, n, events[n].decisionId)
  {
  }

  lemma PassingStep(st: Replay, initial: string, events: seq<RunEvent>, n: nat)
    requires n < |events| && PassingIs(st.passing, initial, events, n)
    requires st.subject == SubjectAt(initial, events, n) && events[n].sequence == n + 1
    ensures PassingIs(Apply(st, events[n]).passing, initial, events, n + 1)
  {
    if !VerifiesCurrent(initial, events, n) {
      assert Apply(st, events[n]).passing == st.passing;
    }
  }

  lemma CompletionStep(st: Replay, events: seq<RunEvent>, n: nat)
    requires n < |events| && CompletionIs(st.completion, events, n) && events[n].sequence == n + 1
    ensures CompletionIs(Apply(st, events[n]).completion, events, n + 1)
  {
    if !Completes(events[n]) {
      assert Apply(st, events[n]).completion == st.completion;
    }
  }

  lemma DecisionsStep(st: Replay, events: seq<RunEvent>, n: nat)
    requires n < |events| && DecisionsDescribe(st.decisions, events, n)
    requires events[n].EffectDecision? ==> IdIsFresh(events, n, events[n].decisionId)
    ensures DecisionsDescribe(Apply(st, events[n]).decisions, events, n + 1)
  {
    var after := Apply(st, events[n]).decisions;
    forall id | id in after
      ensures exists j | 0 <= j < n + 1 :: events[j].EffectDecision? && events[j].decisionId == id
    {
      if id in st.decisions {
        var j :| 0 <= j < n && events[j].EffectDecision? && events[j].decisionId == id;
      }
    }
  }

  lemma LegalSequence(request: AgentRunRequest, initial: string, events: seq<RunEvent>, i: nat)
    requires i < |events| && EventIsLegal(request, initial, events, i)
    ensures events[i].sequence == i + 1
  {
  }

  lemma InitiallyDescribed(initial: string, events: seq<RunEvent>)
    ensures Describes(InitialReplay(initial), initial, events, 0)
  {
  }

  /** The pass over a prefix succeeds exactly when every event of the prefix is legal, and then describes it. */
  lemma {:induction false} ReplayIsLegality(request: AgentRunRequest, initial: string, events: seq<RunEvent>, n: nat)
    requires n <= |events|
    ensures ReplayEvents(request, initial, events[..n]).Success? <==> forall i | 0 <= i < n :: EventIsLegal(request, initial, events, i)
    ensures ReplayEvents(request, initial, events[..n]).Success? ==>
              Describes(ReplayEvents(request, initial, events[..n]).value, initial, events, n)
  {
    hide EventIsLegal, Describes, Step, Apply;
    if n == 0 {
      InitiallyDescribed(initial, events);
    } else {
      ReplayIsLegality(request, initial, events, n - 1);
      assert events[..n] == events[..n - 1] + [events[n - 1]];
      ReplayAppend(request, initial, events[..n - 1], events[n - 1]);
      var earlier := ReplayEvents(request, initial, events[..n - 1]);
      if earlier.Success? {
        forall i | 0 <= i < n - 1 ensures events[i].sequence == i + 1 {
          LegalSequence(request, initial, events, i);
        }
        CheckIsLegality(request, initial, events, n - 1, earlier.value);
        if EventIsLegal(request, initial, events, n - 1) {
          ApplyDescribes(request, initial, events, n - 1, earlier.value);
        }
      }
    }
  }

  /** Without a mutation between two positions the subject is the same at both. */
  lemma {:induction false} SubjectIsStable(initial: string, events: seq<RunEvent>, lo: nat, hi: nat)
    requires lo <= hi <= |events| && forall k | lo <= k < hi :: !events[k].Mutation?
    ensures SubjectAt(initial, events, lo) == SubjectAt(initial, events, hi)
  {
    if lo < hi {
      SubjectIsStable(initial, events, lo, hi - 1);
    }
  }

  lemma LastMutationMeans(st: Replay, initial: string, events: seq<RunEvent>)
    requires Describes(st, initial, events, |events|)
    ensures st.lastMutation <= |events| && (forall k | st.lastMutation <= k < |events| :: !events[k].Mutation?)
    ensures st.lastMutation > 0 ==> events[st.lastMutation - 1].Mutation?
  {
    hide DecisionsDescribe, PassingIs, CompletionIs;
  }

  lemma CompletionIsLegality(request: AgentRunRequest, body: ReceiptBody, st: Replay)
    requires Describes(st, body.initialSubject, body.events, |body.events|)
    requires forall i | 0 <= i < |body.events| :: EventIsLegal(request, body.initialSubject, body.events, i)
    requires st.subject == body.resultingSubject
    ensures CheckCompleted(request, body.usage, st).None? <==>
            && WithinBudget(body.usage, request.budget)
            && exists v, c | 0 <= v < c < |body.events| ::
                 CompletionIsProved(body.initialSubject, body.events, body.resultingSubject, v, c)
  {
    hide EventIsLegal, DecisionsDescribe, LastMutationIs;
    LastMutationMeans(st, body.initialSubject, body.events);
    var initial, events, final := body.initialSubject, body.events, body.resultingSubject;
    if CheckCompleted(request, body.usage, st).None? {
      assert CompletionIsProved(initial, events, final, st.passing.value.0 - 1, st.completion.value.sequence - 1);
    }
    if v, c :| 0 <= v < c < |events| && CompletionIsProved(initial, events, final, v, c) {
      SubjectIsStable(initial, events, v, |events|);
      assert VerifiesCurrent(initial, events, v);
      assert st.passing.Some? && st.completion.Some?;
      var p := st.passing.value.0 - 1;
      assert v <= p < c;
      SubjectIsStable(initial, events, p, |events|);
      assert st.completion.value == RecordOf(events[c]);
    }
  }

  /** The one-pass checker accepts a receipt exactly when its whole trace is legal. */
  lemma CheckerDecidesLegality(support: ContractSupport, request: AgentRunRequest, body: ReceiptBody)
    ensures CheckReceiptBody(support, request, body).None? <==> IsLegalTrace(support, request, body)
  {
    hide CheckHeader, EventIsLegal;
    var n := |body.events|;
    HeaderPassesExactly(support, request, body);
    ReplayIsLegality(request, body.initialSubject, body.events, n);
    assert body.events[..n] == body.events;
    var replayed := ReplayEvents(request, body.initialSubject, body.events);
    if CheckHeader(support, request, body).None? && replayed.Success? {
      var st := replayed.value;
      if st.subject == body.resultingSubject {
        CompletionIsLegality(request, body, st);
      }
    }
  }

  // ---- What an accepted receipt proves ----

  /** The before and after digests of the mutations, in order. */
  function Mutations(events: seq<RunEvent>): seq<(string, string)> {
    if events == [] then []
    else
      var earlier, e := Mutations(events[..|events| - 1]), events[|events| - 1];
      if e.Mutation? then earlier + [(e.before, e.after)] else earlier
  }

  /** Each link begins where the previous one ended. */
  predicate Chains(initial: string, links: seq<(string, string)>, final: string) {
    if links == [] then initial == final
    else
      var last := |links| - 1;
      links[last].1 == final && Chains(initial, links[..last], links[last].0)
  }

  lemma {:induction false} LegalMutationsChain(request: AgentRunRequest, initial: string, events: seq<RunEvent>, n: nat)
    requires n <= |events| && forall i | 0 <= i < n :: EventIsLegal(request, initial, events, i)
    ensures Chains(initial, Mutations(events[..n]), SubjectAt(initial, events, n))
  {
    if n > 0 {
      LegalMutationsChain(request, initial, events, n - 1);
      assert EventIsLegal(request, initial, events, n - 1);
      assert events[..n][..n - 1] == events[..n - 1];
      if events[n - 1].Mutation? {
        assert Mutations(events[..n])[..|Mutations(events[..n - 1])|] == Mutations(events[..n - 1]);
      }
    }
  }

  /** Every accepted receipt chains its mutations from the requested subject to the resulting one. */
  lemma AcceptedMutationsChain(support: ContractSupport, request: AgentRunRequest, body: ReceiptBody)
    requires CheckReceiptBody(support, request, body).None?
    ensures Chains(request.subject.digest, Mutations(body.events), body.resultingSubject)
  {
    CheckerDecidesLegality(support, request, body);
    LegalMutationsChain(request, body.initialSubject, body.events, |body.events|);
    assert body.events[..|body.events|] == body.events;
  }

  /** An accepted completed receipt holds an independent passing verification of the exact resulting subject,
      later than every mutation and earlier than the completion decision. */
  lemma AcceptedCompletionIsVerified(support: ContractSupport, request: AgentRunRequest, body: ReceiptBody) returns (v: nat, c: nat)
    requires CheckReceiptBody(support, request, body).None? && body.terminalStatus == Completed
    ensures v < c < |body.events|
    ensures body.events[v].Verification? && body.events[v].verdict == Pass
    ensures body.events[v].verifiedSubject == body.resultingSubject
    ensures body.events[v].verifierId != body.events[v].implementerId
    ensures forall t | t in request.requiredEvidence :: HasEvidence(body.events[v].evidence, t)
    ensures forall k | 0 <= k < |body.events| && body.events[k].Mutation? :: k < v
    ensures Completes(body.events[c]) && body.events[c].subjectDigest == body.resultingSubject
    ensures WithinBudget(body.usage, request.budget)
  {
    CheckerDecidesLegality(support, request, body);
    v, c :| 0 <= v < c < |body.events| && CompletionIsProved(body.initialSubject, body.events, body.resultingSubject, v, c);
    assert EventIsLegal(request, body.initialSubject, body.events, v);
  }

  /** Nothing accepted executes or mutates without an earlier allow decision for that effect and the subject of the moment. */
  lemma AcceptedEffectsAreAuthorized(support: ContractSupport, request: AgentRunRequest, body: ReceiptBody, i: nat)
    requires CheckReceiptBody(support, request, body).None? && i < |body.events|
    ensures body.events[i].ToolExecution? ==>
              exists j | 0 <= j < i ::
                Allows(body.events[j], body.events[i].executionDecisionId, body.events[i].executedDigest,
                       SubjectAt(body.initialSubject, body.events, i), PermissionGate)
    ensures body.events[i].Mutation? ==>
              exists j | 0 <= j < i ::
                Allows(body.events[j], body.events[i].mutationDecisionId, body.events[i].mutatedDigest, body.events[i].before, WorkflowGate)
  {
    CheckerDecidesLegality(support, request, body);
    assert EventIsLegal(request, body.initialSubject, body.events, i);
  }
}

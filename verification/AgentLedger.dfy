/** The run's append-only ledger. */
module AgentLedger {
  import opened Text
  import opened Contracts
  import opened UsageArithmetic
  import opened ReceiptChecker
  import opened ReceiptTrace
  import opened RunCoordinator
  import opened RuntimeModel
  import opened ResultChecker
  import opened DecisionIds
  import opened LedgerFacts

  function ResultLocator(effectId: string): (locator: string)
    ensures NonBlank(locator)
  {
    assert ("gaap:protected-effect-result/" + effectId)[0] == 'g';
    "gaap:protected-effect-result/" + effectId
  }

  /** The first artifact reference of an effect, or a fixed reference that says it is missing. */
  function ArtifactReference(hashes: Hashes, evidence: seq<EffectEvidence>): (e: Evidence)
    ensures e.evidenceType == ArtifactEvidence
    ensures hashes.WellFormed() && (forall r | r in evidence :: EffectEvidenceIsValid(r)) ==> EvidenceIsValid(e)
  {
    var found := Find(evidence, (r: EffectEvidence) => r.evidenceType == ArtifactChange);
    if found.Some? then Evidence(ArtifactEvidence, found.value.digest, found.value.locator)
    else Evidence(ArtifactEvidence, hashes.tagged(MissingArtifact), Some("gaap:runtime/missing-artifact-evidence"))
  }

  function InterruptionReference(hashes: Hashes, evidence: seq<EffectEvidence>): (e: Evidence)
    ensures e.evidenceType == InterruptionEvidence
    ensures hashes.WellFormed() && (forall r | r in evidence :: EffectEvidenceIsValid(r)) ==> EvidenceIsValid(e)
  {
    var found := Find(evidence, (r: EffectEvidence) => r.evidenceType == InterruptedEvidence);
    if found.Some? then Evidence(InterruptionEvidence, found.value.digest, found.value.locator)
    else Evidence(InterruptionEvidence, hashes.tagged(InterruptedEffect), Some("gaap:runtime/interrupted-effect"))
  }

  /** The search for the first reference of a kind. */
  method FirstOfKind(evidence: seq<EffectEvidence>, kind: EffectEvidenceType) returns (found: Option<EffectEvidence>)
    ensures found == Find(evidence, (r: EffectEvidence) => r.evidenceType == kind)
  {
    ghost var matches := (r: EffectEvidence) => r.evidenceType == kind;
    var index := 0;
    while index < |evidence|
      invariant 0 <= index <= |evidence|
      invariant forall i | 0 <= i < index :: !matches(evidence[i])
    {
      FindIsFirst(evidence, matches, index);
      if evidence[index].evidenceType == kind {
        return Some(evidence[index]);
      }
      index := index + 1;
    }
    FindIsFirst(evidence, matches, index);
    found := None;
  }

  /** The artifact that a mutation is recorded with. */
  method ArtifactOf(hashes: Hashes, evidence: seq<EffectEvidence>) returns (artifact: Evidence)
    ensures artifact == ArtifactReference(hashes, evidence)
  {
    artifact := Evidence(ArtifactEvidence, hashes.tagged(MissingArtifact), Some("gaap:runtime/missing-artifact-evidence"));
    var found := FirstOfKind(evidence, ArtifactChange);
    if found.Some? {
      artifact := Evidence(ArtifactEvidence, found.value.digest, found.value.locator);
    }
  }

  /** The reference that an interrupted effect is recorded with. */
  method InterruptionOf(hashes: Hashes, evidence: seq<EffectEvidence>) returns (reference: Evidence)
    ensures reference == InterruptionReference(hashes, evidence)
  {
    reference := Evidence(InterruptionEvidence, hashes.tagged(InterruptedEffect), Some("gaap:runtime/interrupted-effect"));
    var found := FirstOfKind(evidence, InterruptedEvidence);
    if found.Some? {
      reference := Evidence(InterruptionEvidence, found.value.digest, found.value.locator);
    }
  }

  /** A report may enter the ledger exactly when the receipt checker accepts its event there. */
  lemma SafeReportIsAccepted(request: AgentRunRequest, st: Replay, sequence: nat, implementerId: string, report: Report)
    ensures ReportIsReceiptSafe(request, implementerId, report) <==>
            CheckEvent(request, st, Verification(sequence, report.subjectDigest, implementerId, report.verifierId, report.verdict, report.evidence)).None?
  {
    hide IsDigest, NonBlank, HasEvidence;
  }

  function ToolExecutionEvent(sequence: nat, id: string, effectDigest: string, capabilityDigest: string, result: EffectResult): RunEvent {
    ToolExecution(sequence, id, effectDigest, effectDigest, capabilityDigest,
                  [Evidence(ToolExecutionEvidence, result.digest, Some(ResultLocator(result.body.effectId)))])
  }

  function EffectInterruption(hashes: Hashes, sequence: nat, result: EffectResult): RunEvent {
    Interruption(
      sequence,
      if result.body.executor.None? then None else Some(result.body.executor.value.name),
      if result.body.reason.None? then Fixed(EffectWasInterrupted) else result.body.reason.value,
      InterruptionReference(hashes, result.body.evidence))
  }

  /** Effects numbered from one, with pairwise distinct identifiers, digests and idempotency keys. */
  ghost predicate AreDistinctEffects(hashes: Hashes, effects: seq<EffectRequest>) {
    && (forall i | 0 <= i < |effects| :: effects[i].effectSequence == i + 1)
    && (forall i, j | 0 <= i < j < |effects| ::
          && effects[i].effectId != effects[j].effectId
          && hashes.effect(effects[i]) != hashes.effect(effects[j])
          && effects[i].idempotencyKey != effects[j].idempotencyKey)
  }

  lemma DistinctEffectsGrow(hashes: Hashes, effects: seq<EffectRequest>, e: EffectRequest)
    requires AreDistinctEffects(hashes, effects) && e.effectSequence == |effects| + 1
    requires forall other | other in effects ::
               other.effectId != e.effectId && hashes.effect(other) != hashes.effect(e) && other.idempotencyKey != e.idempotencyKey
    ensures AreDistinctEffects(hashes, effects + [e])
  {
  }

  class Ledger {
    const hashes: Hashes
    const request: AgentRunRequest
    const requestDigest: string
    var currentSubject: Subject
    var status: RunStatus
    var usage: Usage
    var events: seq<RunEvent>
    var effectResults: seq<EffectResult>
    var effectsSeen: nat
    var effectIds: set<string>
    var effectDigests: set<string>
    var idempotencyKeys: set<string>
    var mutationRequired: bool
    var mutationAuthorized: bool

    /** The checker's state after these events. */
    ghost var replay: Replay

    /** Everything charged so far. */
    ghost var charges: seq<Usage>

    /** The effects whose identity was accepted. */
    ghost var accepted: seq<EffectRequest>

    constructor (hashes: Hashes, request: AgentRunRequest, requestDigest: string)
      ensures this.hashes == hashes && this.request == request && this.requestDigest == requestDigest
      ensures currentSubject == request.subject && status == Accepted && usage == ZERO_USAGE
      ensures events == [] && effectResults == [] && effectsSeen == 0 && !mutationRequired && !mutationAuthorized
      ensures replay == InitialReplay(request.subject.digest) && charges == [] && accepted == []
      ensures SubjectIsValid(request.subject) ==> Sound()
      ensures IdentitiesAgree()
    {
      this.hashes := hashes;
      this.request := request;
      this.requestDigest := requestDigest;
      currentSubject := request.subject;
      status := Accepted;
      usage := ZERO_USAGE;
      events := [];
      effectResults := [];
      effectsSeen := 0;
      effectIds := {};
      effectDigests := {};
      idempotencyKeys := {};
      mutationRequired := false;
      mutationAuthorized := false;
      replay := InitialReplay(request.subject.digest);
      charges := [];
      accepted := [];
    }

    /** The ledger's fields and the checker's variables tell the same story, with `subject` as the current one. */
    ghost predicate SoundAt(subject: Subject)
      reads this`status, this`usage, this`events, this`replay, this`charges
    {
      && Replays(request, events, replay)
      && replay.status == status
      && replay.subject == subject.digest && SubjectIsValid(subject)
      && replay.usage == UsageAt(events, |events|)
      && replay.usage in {if usage == ZERO_USAGE then None else Some(usage), Some(usage)}
      && replay.lastMutation <= |events|
      && usage == Cap(Total(charges))
      && UsageNeverRepeats(events)
      && replay.interrupted == (Interruptions(events) > 0)
      && (forall id | id in replay.decisions :: IsUsed(id, |events|))
    }

    ghost predicate Sound()
      reads this`currentSubject, this`status, this`usage, this`events, this`replay, this`charges
    {
      SoundAt(currentSubject)
    }

    ghost predicate IdentitiesAgree()
      reads this`effectsSeen, this`effectIds, this`effectDigests, this`idempotencyKeys, this`accepted
    {
      && effectsSeen == |accepted|
      && effectIds == (set e | e in accepted :: e.effectId)
      && effectDigests == (set e | e in accepted :: hashes.effect(e))
      && idempotencyKeys == (set e | e in accepted :: e.idempotencyKey)
      && AreDistinctEffects(hashes, accepted)
    }

    /** An earlier allow decision of the gate covers this effect and the current subject. */
    ghost predicate IsAuthorized(id: string, effectDigest: string, gate: Gate)
      reads this`events, this`replay
    {
      && NonBlank(id) && IsDigest(effectDigest)
      && id in replay.decisions && Permits(replay.decisions[id], effectDigest, |events| + 1, replay.subject, gate)
    }

    function NextSequence(): nat
      reads this`events
    {
      |events| + 1
    }

    function NextDecisionId(prefix: IdPrefix, effectSequence: nat): (id: string)
      reads this`events
      ensures NonBlank(id) && TrailingDigits(id) == Decimal(|events| + 1)
    {
      DecisionId(effectSequence, prefix, NextSequence())
    }

    function AdmissionDecision(effect: EffectRequest, effectDigest: string, maxEffects: nat): (decision: Option<Decision>)
      reads this`effectsSeen, this`effectIds, this`effectDigests, this`idempotencyKeys
      ensures decision.None? <==>
              && effect.effectSequence == effectsSeen + 1 <= maxEffects
              && effect.effectId !in effectIds && effectDigest !in effectDigests && effect.idempotencyKey !in idempotencyKeys
      ensures decision.Some? ==> decision.value.outcome.Block? && IsGateDecision(decision.value)
    {
      if effect.effectSequence != effectsSeen + 1 then Some(Decide(Block, EffectSequenceInvalid, [StopExecution, RecordDeclinedEffect]))
      else if effectsSeen >= maxEffects then Some(Decide(Block, MaxEffectsExhausted, [StopExecution, RecordDeclinedEffect]))
      else if effect.effectId in effectIds || effectDigest in effectDigests || effect.idempotencyKey in idempotencyKeys then
        Some(Decide(Block, DuplicateEffect, [StopExecution, RecordDeclinedEffect]))
      else None
    }

    method AcceptEffectIdentity(effect: EffectRequest, effectDigest: string)
      modifies this`effectsSeen, this`effectIds, this`effectDigests, this`idempotencyKeys, this`mutationRequired, this`accepted
      ensures accepted == old(accepted) + [effect] && effectsSeen == old(effectsSeen) + 1
      ensures mutationRequired == (old(mutationRequired) || effect.effectClass.MutationEffect?)
      ensures && old(IdentitiesAgree()) && effectDigest == hashes.effect(effect)
              && effect.effectSequence == old(effectsSeen) + 1
              && effect.effectId !in old(effectIds) && effectDigest !in old(effectDigests)
              && effect.idempotencyKey !in old(idempotencyKeys)
              ==> IdentitiesAgree()
    {
      effectsSeen := effectsSeen + 1;
      effectIds := effectIds + {effect.effectId};
      effectDigests := effectDigests + {effectDigest};
      idempotencyKeys := idempotencyKeys + {effect.idempotencyKey};
      if effect.effectClass.MutationEffect? {
        mutationRequired := true;
      }
      ghost var before := accepted;
      accepted := accepted + [effect];
      assert forall e :: e in accepted <==> e in before || e == effect;
    }

    /** Appends one event; every recording operation ends here. */
    method Push(e: RunEvent)
      modifies this`events, this`replay
      ensures events == old(events) + [e] && replay == Apply(old(replay), e)
      ensures Interruptions(events) == old(Interruptions(events)) + if e.Interruption? then 1 else 0
      ensures Mentions(events) == old(Mentions(events)) + if IsMention(e) then [e] else []
      ensures old(Replays(request, events, replay)) && e.sequence == |old(events)| + 1 && CheckEvent(request, old(replay), e).None?
              ==> Replays(request, events, replay)
      ensures UsageAt(events, |events|) == if e.UsageRecorded? then Some(e.usage) else old(UsageAt(events, |events|))
      ensures old(UsageNeverRepeats(events)) && (e.UsageRecorded? ==> old(UsageAt(events, |events|)) != Some(e.usage)) ==> UsageNeverRepeats(events)
      ensures forall id :: IsUsed(id, |old(events)|) ==> IsUsed(id, |events|)
    {
      hide CheckEvent, Apply, ReplayEvents, Step;
      InterruptionsGrow(events, e);
      MentionsGrow(events, e);
      UsageGrows(events, e);
      if Replays(request, events, replay) && e.sequence == |events| + 1 && CheckEvent(request, replay, e).None? {
        ReplaysGrows(request, events, replay, e);
      }
      forall id | IsUsed(id, |events|) ensures IsUsed(id, |events| + 1) {
        UsedPersists(id, |events|);
      }
      events := events + [e];
      replay := Apply(replay, e);
    }

    method Transition(to: RunStatus, reason: Option<Phrase>)
      modifies this`status, this`events, this`replay
      ensures Mentions(events) == old(Mentions(events)) && Interruptions(events) == old(Interruptions(events))
      ensures events == old(events) + [StatusTransition(|old(events)| + 1, old(status), to, reason)] && status == to
      ensures replay == old(replay).(status := to)
      ensures old(Sound()) && ValidTransition(old(status), to) && (reason.Some? ==> PhraseIsNonBlank(reason.value)) ==> Sound()
    {
      hide ValidTransition, Replays, UsageAt, UsageNeverRepeats, Interruptions, Mentions;
      var e := StatusTransition(NextSequence(), status, to, reason);
      Push(e);
      status := to;
    }

    method RecordPlan(planDigest: string)
      modifies this`events, this`replay
      ensures Mentions(events) == old(Mentions(events)) && Interruptions(events) == old(Interruptions(events))
      ensures events == old(events) + [PlanRecorded(|old(events)| + 1, planDigest)] && replay == old(replay)
      ensures old(Sound()) && IsDigest(planDigest) ==> Sound()
    {
      Push(PlanRecorded(NextSequence(), planDigest));
    }

    method RecordApproval(approval: Approval)
      modifies this`events, this`replay
      ensures Mentions(events) == old(Mentions(events)) && Interruptions(events) == old(Interruptions(events))
      ensures events == old(events) + [ApprovalRecorded(|old(events)| + 1, approval)] && replay == old(replay)
      ensures old(Sound()) && ApprovalIsValid(approval) ==> Sound()
    {
      hide ApprovalIsValid, Replays, UsageAt, UsageNeverRepeats, Interruptions, Mentions;
      Push(ApprovalRecorded(NextSequence(), approval));
    }

    method RecordDecision(id: string, gate: Gate, effectDigest: string, decision: Decision)
      modifies this`events, this`replay, this`mutationAuthorized
      ensures events == old(events) + [EffectDecision(|old(events)| + 1, id, gate, effectDigest, currentSubject.digest, decision)]
      ensures Mentions(events) == old(Mentions(events)) + [events[|old(events)|]] && Interruptions(events) == old(Interruptions(events))
      ensures replay == Apply(old(replay), events[|old(events)|])
      ensures mutationAuthorized ==
              (old(mutationAuthorized) || (gate.WorkflowGate? && decision.outcome.Allow? && decision.code == Fixed(MutationAuthorized)))
      ensures && old(Sound()) && NonBlank(id) && IsDigest(effectDigest) && DecisionIsRecordable(decision)
              && (TrailingDigits(id) == Decimal(|old(events)| + 1) || (id == CompletionId() && id !in old(replay).decisions))
              ==> Sound() && id !in old(replay).decisions && (TrailingDigits(id) == Decimal(|old(events)| + 1) ==> id != CompletionId())
    {
      hide Replays, UsageAt, UsageNeverRepeats, Interruptions, Mentions, NonBlank, IsDigest, TrailingDigits, Decimal, IsUsed, CompletionId;
      var e := EffectDecision(NextSequence(), id, gate, effectDigest, currentSubject.digest, decision);
      ghost var ids := replay.decisions.Keys;
      if Sound() && TrailingDigits(id) == Decimal(|events| + 1) {
        NumberedIsFresh(ids, |events|, id);
      }
      CompletionIdIsUsed(|events| + 1);
      Push(e);
      if gate.WorkflowGate? && decision.outcome.Allow? && decision.code == Fixed(MutationAuthorized) {
        mutationAuthorized := true;
      }
    }

    method RecordToolExecution(id: string, effectDigest: string, capabilityDigest: string, result: EffectResult)
      modifies this`events, this`replay
      ensures events == old(events) + [ToolExecutionEvent(|old(events)| + 1, id, effectDigest, capabilityDigest, result)]
      ensures Mentions(events) == old(Mentions(events)) + [events[|old(events)|]] && Interruptions(events) == old(Interruptions(events))
      ensures replay == old(replay)
      ensures && old(Sound()) && old(IsAuthorized(id, effectDigest, PermissionGate)) && IsDigest(result.digest)
              && IsDigest(capabilityDigest) && capabilityDigest == request.requestedCapability.digest
              ==> Sound()
    {
      hide Replays, UsageAt, UsageNeverRepeats, Interruptions, Mentions, NonBlank, IsDigest;
      var locator := "gaap:protected-effect-result/" + result.body.effectId;
      var e := ToolExecution(
        NextSequence(), id, effectDigest, effectDigest, capabilityDigest, [Evidence(ToolExecutionEvidence, result.digest, Some(locator))]);
      assert HasEvidence(e.evidence, ToolExecutionEvidence) by {
        assert e.evidence[0] in e.evidence;
      }
      Push(e);
    }

    /** Records the mutation only; the caller then moves the current subject to `after`. */
    method RecordMutation(id: string, effectDigest: string, after: Subject, evidence: seq<EffectEvidence>)
      modifies this`events, this`replay
      ensures events == old(events) +
              [Mutation(|old(events)| + 1, id, effectDigest, currentSubject.digest, after.digest, [ArtifactReference(hashes, evidence)])]
      ensures Mentions(events) == old(Mentions(events)) + [events[|old(events)|]] && Interruptions(events) == old(Interruptions(events))
      ensures replay == old(replay).(subject := after.digest, lastMutation := |old(events)| + 1)
      ensures && old(Sound()) && old(IsAuthorized(id, effectDigest, WorkflowGate)) && SubjectIsValid(after)
              && hashes.WellFormed() && (forall r | r in evidence :: EffectEvidenceIsValid(r))
              ==> SoundAt(after)
    {
      hide Replays, UsageAt, UsageNeverRepeats, Interruptions, Mentions, NonBlank, IsDigest, EvidenceIsValid;
      hide ArtifactReference;
      var artifact := ArtifactOf(hashes, evidence);
      var e := Mutation(NextSequence(), id, effectDigest, currentSubject.digest, after.digest, [artifact]);
      assert HasEvidence(e.evidence, ArtifactEvidence) by {
        assert e.evidence[0] in e.evidence;
      }
      Push(e);
    }

    /** Records the usage unless the latest usage event already says so. */
    method UsageEvent()
      modifies this`events, this`replay
      ensures Mentions(events) == old(Mentions(events)) && Interruptions(events) == old(Interruptions(events))
      ensures if old(UsageAt(events, |events|)) == Some(usage) then events == old(events) && replay == old(replay)
              else events == old(events) + [UsageRecorded(|old(events)| + 1, usage)] && replay == old(replay).(usage := Some(usage))
      ensures UsageAt(events, |events|) == Some(usage)
      ensures && old(Replays(request, events, replay)) && UsageIsSafe(usage)
              && (old(replay).usage.Some? ==> AtMost(old(replay).usage.value, usage))
              ==> Replays(request, events, replay)
      ensures old(UsageNeverRepeats(events)) ==> UsageNeverRepeats(events)
      ensures forall id :: IsUsed(id, |old(events)|) ==> IsUsed(id, |events|)
      ensures old(Sound()) ==> Sound() && replay == old(replay).(usage := Some(usage))
    {
      hide Replays, UsageAt, UsageNeverRepeats, Interruptions, Mentions, IsUsed;
      var latest := LatestUsage(events);
      if latest == Some(usage) {
        return;
      }
      Push(UsageRecorded(NextSequence(), usage));
    }

    /** Adds one port's usage; the result says why the run must stop, if it must. */
    method RecordUsage(u: Usage) returns (reason: Option<Word>)
      modifies this`usage, this`events, this`replay, this`charges
      ensures Mentions(events) == old(Mentions(events)) && Interruptions(events) == old(Interruptions(events))
      ensures charges == old(charges) + [u] && usage == CappedUsage(old(usage), u)
      ensures events ==
              if old(UsageAt(events, |events|)) == Some(usage) then old(events)
              else old(events) + [UsageRecorded(|old(events)| + 1, usage)]
      ensures reason == ChargeReason(old(usage), u, request.budget)
      ensures old(Sound()) ==> Sound() && replay == old(replay).(usage := Some(usage))
    {
      hide Replays, UsageAt, UsageNeverRepeats, Interruptions, Mentions, IsUsed, Total;
      TotalGrows(charges, u);
      assert Sound() ==> UsageIsSafe(usage);
      charges := charges + [u];
      var next := Project(usage, u);
      if next.None? {
        usage := CappedUsage(usage, u);
        UsageEvent();
        return Some(UsageOverflow);
      }
      usage := next.value;
      UsageEvent();
      reason := if ExceedsBudget(usage, request.budget) then Some(BudgetExceeded) else None;
    }

    method RecordVerification(implementerId: string, report: Report)
      modifies this`events, this`replay
      ensures Mentions(events) == old(Mentions(events)) && Interruptions(events) == old(Interruptions(events))
      ensures events == old(events) +
              [Verification(|old(events)| + 1, report.subjectDigest, implementerId, report.verifierId, report.verdict, report.evidence)]
      ensures replay == Apply(old(replay), events[|old(events)|])
      ensures old(Sound()) && ReportIsReceiptSafe(request, implementerId, report) ==> Sound()
    {
      hide Replays, UsageAt, UsageNeverRepeats, Interruptions, Mentions, NonBlank, IsDigest, HasEvidence, EvidenceSetIsValid;
      Push(Verification(NextSequence(), report.subjectDigest, implementerId, report.verifierId, report.verdict, report.evidence));
    }

    method RecordInterruption(c: Cancellation)
      modifies this`events, this`replay
      ensures Mentions(events) == old(Mentions(events))
      ensures events == old(events) + [Interruption(|old(events)| + 1, c.actorId, c.reason, c.evidence)]
      ensures replay == old(replay).(interrupted := true)
      ensures Interruptions(events) == old(Interruptions(events)) + 1
      ensures && old(Sound()) && NonBlankOption(c.actorId) && PhraseIsNonBlank(c.reason)
              && EvidenceIsValid(c.evidence) && c.evidence.evidenceType == InterruptionEvidence
              ==> Sound()
    {
      hide Replays, UsageAt, UsageNeverRepeats, Interruptions, Mentions, NonBlank, EvidenceIsValid;
      Push(Interruption(NextSequence(), c.actorId, c.reason, c.evidence));
    }

    method RecordEffectInterruption(result: EffectResult)
      modifies this`events, this`replay
      ensures Mentions(events) == old(Mentions(events))
      ensures events == old(events) + [EffectInterruption(hashes, |old(events)| + 1, result)]
      ensures replay == old(replay).(interrupted := true)
      ensures Interruptions(events) == old(Interruptions(events)) + 1
      ensures && old(Sound()) && hashes.WellFormed() && (forall r | r in result.body.evidence :: EffectEvidenceIsValid(r))
              && (result.body.executor.Some? ==> IdentityIsValid(result.body.executor.value))
              && (result.body.reason.Some? ==> PhraseIsNonBlank(result.body.reason.value))
              ==> Sound()
    {
      hide Replays, UsageAt, UsageNeverRepeats, Interruptions, Mentions, EvidenceIsValid, EffectEvidenceIsValid;
      hide InterruptionReference;
      var reference := InterruptionOf(hashes, result.body.evidence);
      var actor := None;
      if result.body.executor.Some? {
        actor := Some(result.body.executor.value.name);
      }
      var why := Fixed(EffectWasInterrupted);
      if result.body.reason.Some? {
        why := result.body.reason.value;
      }
      Push(Interruption(NextSequence(), actor, why, reference));
    }

    function Body(terminalStatus: RunStatus, terminalReason: Phrase): ReceiptBody
      reads this`currentSubject, this`usage, this`events
    {
      ReceiptBody(
        TERMINAL_RUN_RECEIPT_SCHEMA, request.requestId, request.runId, requestDigest, request.subject.digest,
        currentSubject.digest, terminalStatus, terminalReason, usage, events)
    }
  }
}

/** When the second checker accepts what the engine completed. */
module RunAttestation {
  import opened Text
  import opened Contracts
  import opened UsageArithmetic
  import opened RunCoordinator
  import opened RuntimeModel
  import opened ReceiptChecker
  import opened ResultChecker
  import opened EffectResults
  import opened DecisionIds
  import opened LedgerFacts
  import opened AgentLedger
  import opened EffectSteps
  import opened Attestation
  import RunEngine

  function Records(steps: seq<EffectStep>): (records: seq<EffectRecord>)
    ensures |records| == |steps|
  {
    seq(|steps|, i requires 0 <= i < |steps| => EffectRecord(steps[i].cleared.request, steps[i].result))
  }

  function Digests(steps: seq<EffectStep>): (digests: seq<string>)
    ensures |digests| == |steps|
  {
    seq(|steps|, i requires 0 <= i < |steps| => steps[i].cleared.effectDigest)
  }

  /** The effect an event names. */
  function Named(e: RunEvent): string
    requires IsMention(e)
  {
    match e
    case EffectDecision(_, _, _, digest, _, _) => digest
    case ToolExecution(_, _, digest, _, _, _) => digest
    case Mutation(_, _, digest, _, _, _) => digest
  }

  // ---- Filters ----

  lemma {:induction false} FilterConcat<T>(a: seq<T>, b: seq<T>, keep: T -> bool)
    ensures Filter(a + b, keep) == Filter(a, keep) + Filter(b, keep)
  {
    if b == [] {
      assert a + b == a;
    } else {
      var shorter := b[..|b| - 1];
      assert (a + b)[..|a + b| - 1] == a + shorter;
      FilterConcat(a, shorter, keep);
    }
  }

  lemma {:induction false} FilterNone<T>(s: seq<T>, keep: T -> bool)
    requires forall x | x in s :: !keep(x)
    ensures Filter(s, keep) == []
  {
    if s != [] {
      FilterNone(s[..|s| - 1], keep);
    }
  }

  /** Only the events that name an effect matter to a filter that keeps nothing else. */
  lemma {:induction false} FilterMentions(events: seq<RunEvent>, keep: RunEvent -> bool)
    requires forall e :: keep(e) ==> IsMention(e)
    ensures Filter(events, keep) == Filter(Mentions(events), keep)
  {
    if events != [] {
      var earlier, e := events[..|events| - 1], events[|events| - 1];
      FilterMentions(earlier, keep);
      if IsMention(e) {
        assert Mentions(events)[..|Mentions(earlier)|] == Mentions(earlier);
      } else {
        assert Mentions(events) == Mentions(earlier);
      }
    }
  }

  lemma {:induction false} MentionsAreEvents(events: seq<RunEvent>, e: RunEvent)
    ensures e in Mentions(events) <==> e in events && IsMention(e)
  {
    if events != [] {
      MentionsAreEvents(events[..|events| - 1], e);
      assert events == events[..|events| - 1] + [events[|events| - 1]];
    }
  }

  lemma {:induction false} OrderOfMentions(events: seq<RunEvent>)
    ensures Order(events) == Order(Mentions(events))
  {
    if events != [] {
      var earlier, e := events[..|events| - 1], events[|events| - 1];
      OrderOfMentions(earlier);
      if IsMention(e) {
        assert Mentions(events)[..|Mentions(earlier)|] == Mentions(earlier);
      } else {
        assert Mentions(events) == Mentions(earlier);
      }
    }
  }

  // ---- Blocks ----

  lemma StepNames(hashes: Hashes, step: EffectStep)
    ensures forall e | e in step.Events(hashes) :: IsMention(e) && Named(e) == step.cleared.effectDigest
  {
    hide DecisionId, ResultLocator, ArtifactReference;
  }

  lemma {:induction false} BlocksName(hashes: Hashes, steps: seq<EffectStep>)
    ensures forall e | e in Blocks(hashes, steps) :: IsMention(e) && Named(e) in Digests(steps)
  {
    hide EffectStep.Events;
    if steps != [] {
      var last := |steps| - 1;
      BlocksName(hashes, steps[..last]);
      StepNames(hashes, steps[last]);
      assert Digests(steps) == Digests(steps[..last]) + [steps[last].cleared.effectDigest];
    }
  }

  /** The blocks before and after one effect's block name other effects. */
  lemma {:induction false} BlockAt(hashes: Hashes, steps: seq<EffectStep>, i: nat) returns (before: seq<RunEvent>, after: seq<RunEvent>)
    requires i < |steps|
    requires forall j, k | 0 <= j < k < |steps| :: steps[j].cleared.effectDigest != steps[k].cleared.effectDigest
    ensures Blocks(hashes, steps) == before + steps[i].Events(hashes) + after
    ensures forall e | e in before + after :: IsMention(e) && Named(e) != steps[i].cleared.effectDigest
    decreases |steps|
  {
    hide EffectStep.Events;
    var last := |steps| - 1;
    if i == last {
      before, after := Blocks(hashes, steps[..last]), [];
      BlocksName(hashes, steps[..last]);
      assert forall d | d in Digests(steps[..last]) :: d != steps[last].cleared.effectDigest;
    } else {
      before, after := BlockAt(hashes, steps[..last], i);
      StepNames(hashes, steps[last]);
      after := after + steps[last].Events(hashes);
    }
  }

  // ---- What the ledger of a completed run says about one effect ----

  /** The mentions of a completed run. */
  ghost predicate IsCompletedMentions(hashes: Hashes, mentions: seq<RunEvent>, steps: seq<EffectStep>, completion: RunEvent, final: string) {
    && mentions == Blocks(hashes, steps) + [completion] && IsCompletionOf(completion, final)
    && (forall j, k | 0 <= j < k < |steps| :: steps[j].cleared.effectDigest != steps[k].cleared.effectDigest)
  }

  /** A filter for events that name one effect sees that effect's block, and the completion when it names the same digest. */
  lemma FilterForEffect(
    hashes: Hashes, mentions: seq<RunEvent>, steps: seq<EffectStep>, completion: RunEvent, final: string, i: nat, keep: RunEvent -> bool)
    requires i < |steps| && IsCompletedMentions(hashes, mentions, steps, completion, final)
    requires forall e :: keep(e) ==> IsMention(e) && Named(e) == steps[i].cleared.effectDigest
    ensures Filter(mentions, keep) == Filter(steps[i].Events(hashes), keep) + Filter([completion], keep)
  {
    hide EffectStep.Events, Filter, Blocks;
    var before, after := BlockAt(hashes, steps, i);
    var block := steps[i].Events(hashes);
    assert forall e | e in before :: e in before + after;
    assert forall e | e in after :: e in before + after;
    FilterNone(before, keep);
    FilterNone(after, keep);
    FilterConcat(before, block, keep);
    FilterConcat(before + block, after, keep);
    FilterConcat(Blocks(hashes, steps), [completion], keep);
  }

  lemma FilterOne<T>(x: T, keep: T -> bool)
    ensures Filter([x], keep) == if keep(x) then [x] else []
  {
    assert [x][..0] == [];
  }

  lemma FilterAll<T>(s: seq<T>, keep: T -> bool)
    requires forall x | x in s :: keep(x)
    ensures Filter(s, keep) == s
  {
    if s != [] {
      FilterAll(s[..|s| - 1], keep);
      assert s == s[..|s| - 1] + [s[|s| - 1]];
    }
  }

  lemma GateEventsDecide(c: Clearance)
    ensures forall e | e in c.GateEvents() :: e.EffectDecision? && e.effectDigest == c.effectDigest && e.subjectDigest == c.request.subject.digest
    ensures GatesAllow(c.gates) ==> forall e | e in c.GateEvents() :: e.decision.outcome.Allow?
    ensures forall e | e in c.GateEvents() :: e.sequence < c.ExecutionSequence()
  {
    hide DecisionId;
  }

  /** The decisions about an executed effect are its gates', and the completion's when the effect digest is the final subject's. */
  lemma DecisionsAre(hashes: Hashes, events: seq<RunEvent>, steps: seq<EffectStep>, completion: RunEvent, final: string, i: nat)
    requires i < |steps| && IsCompletedMentions(hashes, Mentions(events), steps, completion, final)
    ensures DecisionsOf(events, steps[i].cleared.effectDigest) ==
            steps[i].cleared.GateEvents() + if steps[i].cleared.effectDigest == final then [completion] else []
  {
    hide DecisionId, Clearance.GateEvents, EffectStep.AttemptEvents, IsCompletedMentions;
    var step := steps[i];
    var keep := (e: RunEvent) => e.EffectDecision? && e.effectDigest == step.cleared.effectDigest;
    assert DecisionsOf(events, step.cleared.effectDigest) == Filter(events, keep);
    FilterMentions(events, keep);
    FilterForEffect(hashes, Mentions(events), steps, completion, final, i, keep);
    FilterConcat(step.cleared.GateEvents(), step.AttemptEvents(hashes), keep);
    GateEventsDecide(step.cleared);
    FilterAll(step.cleared.GateEvents(), keep);
    AttemptEventsExecute(hashes, step);
    FilterNone(step.AttemptEvents(hashes), keep);
    FilterOne(completion, keep);
    CompletionDecides(hashes, Mentions(events), steps, completion, final);
  }

  lemma CompletionDecides(hashes: Hashes, mentions: seq<RunEvent>, steps: seq<EffectStep>, completion: RunEvent, final: string)
    requires IsCompletedMentions(hashes, mentions, steps, completion, final)
    ensures completion.EffectDecision? && completion.effectDigest == final && completion.subjectDigest == final && IsBoundaryDecision(completion)
    ensures completion.decision.outcome.Allow?
  {
  }

  lemma AttemptEventsExecute(hashes: Hashes, step: EffectStep)
    ensures step.AttemptEvents(hashes)[0] == step.ExecutionEvent() && step.ExecutionEvent().ToolExecution?
    ensures forall e | e in step.AttemptEvents(hashes) :: !e.EffectDecision?
  {
    hide DecisionId, ResultLocator, ArtifactReference;
  }

  /** A filter for the executions or mutations of one effect sees only its attempt. */
  lemma FilterForAttempt(
    hashes: Hashes, events: seq<RunEvent>, steps: seq<EffectStep>, completion: RunEvent, final: string, i: nat, keep: RunEvent -> bool)
    requires i < |steps| && IsCompletedMentions(hashes, Mentions(events), steps, completion, final)
    requires forall e :: keep(e) ==> IsMention(e) && Named(e) == steps[i].cleared.effectDigest && !e.EffectDecision?
    ensures Filter(events, keep) == Filter(steps[i].AttemptEvents(hashes), keep)
  {
    hide Clearance.GateEvents, EffectStep.AttemptEvents, IsCompletedMentions;
    var step := steps[i];
    CompletionDecides(hashes, Mentions(events), steps, completion, final);
    GateEventsDecide(step.cleared);
    FilterMentions(events, keep);
    FilterForEffect(hashes, Mentions(events), steps, completion, final, i, keep);
    FilterConcat(step.cleared.GateEvents(), step.AttemptEvents(hashes), keep);
    FilterNone(step.cleared.GateEvents(), keep);
    FilterOne(completion, keep);
  }

  lemma FilterAttempt(hashes: Hashes, step: EffectStep, keep: RunEvent -> bool)
    ensures Filter(step.AttemptEvents(hashes), keep) ==
            (if keep(step.ExecutionEvent()) then [step.ExecutionEvent()] else [])
            + (if step.Mutates() && keep(step.MutationEvent(hashes)) then [step.MutationEvent(hashes)] else [])
  {
    hide EffectStep.ExecutionEvent, EffectStep.MutationEvent;
    FilterOne(step.ExecutionEvent(), keep);
    if step.Mutates() {
      FilterOne(step.MutationEvent(hashes), keep);
      FilterConcat([step.ExecutionEvent()], [step.MutationEvent(hashes)], keep);
    } else {
      assert step.AttemptEvents(hashes) == [step.ExecutionEvent()];
    }
  }

  lemma ExecutionsAre(hashes: Hashes, events: seq<RunEvent>, steps: seq<EffectStep>, completion: RunEvent, final: string, i: nat)
    requires i < |steps| && IsCompletedMentions(hashes, Mentions(events), steps, completion, final)
    ensures ExecutionsOf(events, steps[i].cleared.effectDigest) == [steps[i].ExecutionEvent()]
    ensures MutationsOf(events, steps[i].cleared.effectDigest) == if steps[i].Mutates() then [steps[i].MutationEvent(hashes)] else []
  {
    hide DecisionId, EffectStep.AttemptEvents, IsCompletedMentions, ResultLocator, ArtifactReference, Filter;
    var digest := steps[i].cleared.effectDigest;
    var executes := (e: RunEvent) => e.ToolExecution? && e.executedDigest == digest;
    var mutates := (e: RunEvent) => e.Mutation? && e.mutatedDigest == digest;
    assert ExecutionsOf(events, digest) == Filter(events, executes);
    assert MutationsOf(events, digest) == Filter(events, mutates);
    FilterForAttempt(hashes, events, steps, completion, final, i, executes);
    FilterForAttempt(hashes, events, steps, completion, final, i, mutates);
    FilterAttempt(hashes, steps[i], executes);
    FilterAttempt(hashes, steps[i], mutates);
  }

  lemma {:induction false} FilterMembers<T>(s: seq<T>, keep: T -> bool)
    ensures forall x | x in Filter(s, keep) :: x in s
  {
    if s != [] {
      FilterMembers(s[..|s| - 1], keep);
      assert s == s[..|s| - 1] + [s[|s| - 1]];
    }
  }

  /** The gates' decisions admit the execution; an extra allow decision spoils this exactly when it is about another subject. */
  lemma AdmissionIs(support: ContractSupport, run: AgentRunRequest, c: Clearance, extra: seq<RunEvent>)
    requires IsCleared(support, run, c)
    requires forall e | e in extra :: e.EffectDecision? && e.decision.outcome.Allow?
    ensures IsAdmittedBy(c.GateEvents() + extra, c.request, c.ExecutionSequence()) <==>
            forall e | e in extra :: e.subjectDigest == c.request.subject.digest
  {
    hide DecisionId, CheckEffectRequest, IsGateDecision;
    var gates := c.GateEvents();
    var decisions := gates + extra;
    GateEventsDecide(c);
    assert forall e :: e in decisions <==> e in gates || e in extra;
    forall gate | gate in RequiredGates(c.request.effectClass)
      ensures exists e | e in decisions :: Admits(e, gate, c.ExecutionSequence())
    {
      var k := if gate.PermissionGate? then 0 else if gate.ToolTrustGate? then 1 else if gate.RuntimeGate? then 2 else 3;
      assert gates[k] in decisions;
      assert Admits(gates[k], gate, c.ExecutionSequence());
    }
  }

  /** An effect whose digest is the final subject's is counted with the completion decision. */
  predicate CollidesWithCompletion(step: EffectStep, final: string) {
    step.cleared.effectDigest == final && step.cleared.request.subject.digest != final
  }

  lemma ExtraDecision(hashes: Hashes, mentions: seq<RunEvent>, steps: seq<EffectStep>, completion: RunEvent, final: string, step: EffectStep)
    requires IsCompletedMentions(hashes, mentions, steps, completion, final)
    ensures var extra := if step.cleared.effectDigest == final then [completion] else [];
            && (forall e | e in extra :: e.EffectDecision? && e.decision.outcome.Allow?)
            && ((forall e | e in extra :: e.subjectDigest == step.cleared.request.subject.digest) <==> !CollidesWithCompletion(step, final))
  {
    CompletionDecides(hashes, mentions, steps, completion, final);
    assert completion in [completion];
  }

  lemma CitedIsRecorded(hashes: Hashes, events: seq<RunEvent>, steps: seq<EffectStep>, completion: RunEvent, final: string, i: nat)
    requires i < |steps| && IsCompletedMentions(hashes, Mentions(events), steps, completion, final)
    ensures exists e | e in events :: CitesEvent(e, steps[i].cleared.Cited(), steps[i].cleared.effectDigest)
  {
    hide IsCompletedMentions, DecisionId;
    var c := steps[i].cleared;
    DecisionsAre(hashes, events, steps, completion, final, i);
    var keep := (e: RunEvent) => e.EffectDecision? && e.effectDigest == c.effectDigest;
    assert DecisionsOf(events, c.effectDigest) == Filter(events, keep);
    FilterMembers(events, keep);
    var permission := c.GateEvents()[0];
    assert permission == DecisionsOf(events, c.effectDigest)[0];
    assert permission in events;
    assert CitesEvent(permission, c.Cited(), c.effectDigest);
  }

  lemma ExecutionRetainsResult(support: ContractSupport, run: AgentRunRequest, step: EffectStep)
    requires StepSucceeded(support, run, step)
    ensures RetainsResult(step.ExecutionEvent(), step.cleared.effectDigest, EffectRecord(step.cleared.request, step.result))
    ensures step.ExecutionEvent().sequence == step.cleared.ExecutionSequence()
  {
    hide DecisionId, ResultLocator, VerifyResult, IsCleared;
    var e := step.ExecutionEvent();
    assert e.evidence[0] in e.evidence;
  }

  /** What the second checker finds in the ledger about an executed effect. */
  lemma LedgerOfStep(
    support: ContractSupport, run: AgentRunRequest, events: seq<RunEvent>, steps: seq<EffectStep>, completion: RunEvent, final: string, i: nat)
    requires i < |steps| && IsCompletedMentions(support.hashes, Mentions(events), steps, completion, final)
    requires StepSucceeded(support, run, steps[i])
    ensures CheckLedgerOf(events, steps[i].cleared.effectDigest, EffectRecord(steps[i].cleared.request, steps[i].result), steps[i].cleared.request.subject.digest) ==
            if CollidesWithCompletion(steps[i], final) then Failure(GatesNotAdmitted) else Success(steps[i].SubjectAfter().digest)
  {
    hide IsCompletedMentions, DecisionId, VerifyResult, IsCleared, Clearance.GateEvents, IsAdmittedBy, RetainsResult, CollidesWithCompletion, ResultLocator;
    hide ArtifactReference, DecisionsOf, ExecutionsOf, MutationsOf, CitesEvent;
    var step := steps[i];
    CitedIsRecorded(support.hashes, events, steps, completion, final, i);
    DecisionsAre(support.hashes, events, steps, completion, final, i);
    ExecutionsAre(support.hashes, events, steps, completion, final, i);
    ExecutionRetainsResult(support, run, step);
    var extra := if step.cleared.effectDigest == final then [completion] else [];
    ExtraDecision(support.hashes, Mentions(events), steps, completion, final, step);
    AdmissionIs(support, run, step.cleared, extra);
  }

  // ---- The order of effects ----

  /** A block of events about one new effect adds its digest once. */
  lemma {:induction false} OrderOfBlock(before: seq<RunEvent>, block: seq<RunEvent>, digest: string)
    requires digest !in Order(before)
    requires block != [] && block[0].EffectDecision? && !IsBoundaryDecision(block[0])
    requires forall e | e in block :: IsMention(e) && Named(e) == digest
    ensures Order(before + block) == Order(before) + [digest]
    decreases |block|
  {
    var last := |block| - 1;
    var shorter := block[..last];
    assert (before + block)[..|before + block| - 1] == before + shorter;
    assert block[last] in block && block[0] in block;
    if last == 0 {
      assert before + shorter == before;
    } else {
      OrderOfBlock(before, shorter, digest);
    }
  }

  lemma {:induction false} OrderOfBlocks(hashes: Hashes, steps: seq<EffectStep>)
    requires forall j, k | 0 <= j < k < |steps| :: steps[j].cleared.effectDigest != steps[k].cleared.effectDigest
    ensures Order(Blocks(hashes, steps)) == Digests(steps)
  {
    hide EffectStep.Events, EffectStep.AttemptEvents;
    if steps != [] {
      var last := |steps| - 1;
      OrderOfBlocks(hashes, steps[..last]);
      StepNames(hashes, steps[last]);
      FirstEvent(hashes, steps[last]);
      OrderOfBlock(Blocks(hashes, steps[..last]), steps[last].Events(hashes), steps[last].cleared.effectDigest);
    }
  }

  lemma FirstEvent(hashes: Hashes, step: EffectStep)
    ensures step.Events(hashes) != [] && step.Events(hashes)[0].EffectDecision? && !IsBoundaryDecision(step.Events(hashes)[0])
  {
  }

  lemma CompletedOrder(hashes: Hashes, events: seq<RunEvent>, steps: seq<EffectStep>, completion: RunEvent, final: string)
    requires IsCompletedMentions(hashes, Mentions(events), steps, completion, final)
    ensures Order(events) == Digests(steps)
  {
    hide Digests;
    OrderOfMentions(events);
    OrderOfBlocks(hashes, steps);
    assert Mentions(events)[..|Mentions(events)| - 1] == Blocks(hashes, steps);
  }

  // ---- The pass over the effects ----

  /** An observed subject keeps the run's kind and locator. */
  predicate StepKeepsScope(run: AgentRunRequest, step: EffectStep) {
    step.result.body.postSubject.Some? ==> KeepsScope(run, step.result.body.postSubject.value)
  }

  function Ids(steps: seq<EffectStep>): set<string> {
    set step | step in steps :: step.cleared.request.effectId
  }

  /** What the attestation of an executed effect depends on. */
  predicate StepAttests(run: AgentRunRequest, step: EffectStep, final: string) {
    StepKeepsScope(run, step) && !CollidesWithCompletion(step, final)
  }

  /** An executed result was observed on the very subject that was requested. */
  lemma ExecutedOnRequestedSubject(support: ContractSupport, run: AgentRunRequest, step: EffectStep)
    requires StepSucceeded(support, run, step)
    ensures step.result.body.preSubject == step.cleared.request.subject && step.result.body.status.Executed?
    ensures UsageIsSafe(step.result.body.usage)
    ensures CheckEffectRequest(support, run, step.cleared.request).None? && step.cleared.effectDigest == support.hashes.effect(step.cleared.request)
    ensures VerifyResult(support, run, step.cleared.request, step.result)
  {
    hide CheckEffectRequest, CheckResultIdentity, CheckObservedIdentities, CheckCitedDecision, CheckEffectEvidence, CheckOperationSpecific, CheckStatusMatrix;
    hide IsDigest, GatesAllow, IsGateDecision;
  }

  /** The pass at one executed effect, from the state that the earlier ones left. */
  lemma PassAtStep(
    support: ContractSupport, run: AgentRunRequest, receipt: ReceiptBody, steps: seq<EffectStep>, completion: RunEvent, final: string, i: nat, st: EffectState)
    requires i < |steps| && IsCompletedMentions(support.hashes, Mentions(receipt.events), steps, completion, final)
    requires StepSucceeded(support, run, steps[i]) && KeepsScope(run, steps[i].cleared.request.subject)
    requires steps[i].cleared.request.effectSequence == i + 1 && steps[i].cleared.request.effectId !in st.ids
    requires st.subject == steps[i].cleared.request.subject.digest
    requires AtMost(Plus(st.sums, steps[i].result.body.usage), Usage(MAX_U64, MAX_U64, MAX_U64, MAX_U64))
    ensures var checked := CheckEffect(support, run, receipt, Digests(steps), i, st, Records(steps)[i]);
            if StepAttests(run, steps[i], final) then
              checked == Success(EffectState(st.ids + {steps[i].cleared.request.effectId}, steps[i].SubjectAfter().digest, Plus(st.sums, steps[i].result.body.usage)))
            else checked.Failure?
  {
    hide IsCompletedMentions, StepSucceeded, VerifyResult, CheckEffectRequest, CheckLedgerOf, CollidesWithCompletion, EffectStep.SubjectAfter, KeepsScope;
    var step := steps[i];
    ExecutedOnRequestedSubject(support, run, step);
    LedgerOfStep(support, run, receipt.events, steps, completion, final, i);
  }

  /** The subject that step `n` starts from, or the final one. */
  function StartOf(steps: seq<EffectStep>, final: Subject, n: nat): Subject
    requires n <= |steps|
  {
    if n == |steps| then final else steps[n].cleared.request.subject
  }

  lemma {:induction false} ChainAt(initial: Subject, steps: seq<EffectStep>, final: Subject, n: nat)
    requires StepsChain(initial, steps, final) && n <= |steps|
    ensures n == 0 ==> StartOf(steps, final, n) == initial
    ensures n > 0 ==> StartOf(steps, final, n) == steps[n - 1].SubjectAfter()
    decreases |steps|
  {
    hide EffectStep.SubjectAfter;
    if n < |steps| {
      var last := |steps| - 1;
      ChainAt(initial, steps[..last], steps[last].cleared.request.subject, n);
    }
  }

  lemma {:induction false} StepsUsageMonotone(steps: seq<EffectStep>, n: nat)
    requires n <= |steps|
    ensures AtMost(StepsUsage(steps[..n]), StepsUsage(steps))
    decreases |steps|
  {
    if n == |steps| {
      assert steps[..n] == steps;
    } else {
      var shorter := steps[..|steps| - 1];
      assert shorter[..n] == steps[..n];
      StepsUsageMonotone(shorter, n);
    }
  }

  lemma NextIdIsNew(hashes: Hashes, steps: seq<EffectStep>, n: nat)
    requires n < |steps| && AreDistinctEffects(hashes, Requests(steps))
    ensures steps[n].cleared.request.effectId !in Ids(steps[..n]) && steps[n].cleared.request.effectSequence == n + 1
    ensures Ids(steps[..n + 1]) == Ids(steps[..n]) + {steps[n].cleared.request.effectId}
  {
    forall step | step in steps[..n] ensures step.cleared.request.effectId != steps[n].cleared.request.effectId {
      var j :| 0 <= j < n && steps[..n][j] == step;
      assert Requests(steps)[j].effectId != Requests(steps)[n].effectId;
    }
    assert Requests(steps)[n] == steps[n].cleared.request;
    assert steps[..n + 1] == steps[..n] + [steps[n]];
  }

  /** The pass over the first `n` effects succeeds exactly when each of them attests, and then has followed the run. */
  lemma {:induction false} PassOverSteps(
    support: ContractSupport, run: AgentRunRequest, receipt: ReceiptBody, steps: seq<EffectStep>, completion: RunEvent, final: Subject, n: nat)
    requires n <= |steps| && IsCompletedMentions(support.hashes, Mentions(receipt.events), steps, completion, final.digest)
    requires forall i | 0 <= i < |steps| :: StepSucceeded(support, run, steps[i])
    requires StepsChain(run.subject, steps, final) && AreDistinctEffects(support.hashes, Requests(steps))
    requires AtMost(StepsUsage(steps), Usage(MAX_U64, MAX_U64, MAX_U64, MAX_U64))
    ensures var checked := CheckEffectsFrom(support, run, receipt, Digests(steps), Records(steps)[..n]);
            if forall i | 0 <= i < n :: StepAttests(run, steps[i], final.digest) then
              && checked == Success(EffectState(Ids(steps[..n]), StartOf(steps, final, n).digest, StepsUsage(steps[..n])))
              && KeepsScope(run, StartOf(steps, final, n))
            else checked.Failure?
  {
    hide IsCompletedMentions, StepSucceeded, CheckEffect, StepsChain, AreDistinctEffects, CollidesWithCompletion, Ids, Records;
    ChainAt(run.subject, steps, final, n);
    if n > 0 {
      PassOverSteps(support, run, receipt, steps, completion, final, n - 1);
      NextIdIsNew(support.hashes, steps, n - 1);
      StepsUsageMonotone(steps, n);
      assert steps[..n][..n - 1] == steps[..n - 1];
      assert Records(steps)[..n][..n - 1] == Records(steps)[..n - 1];
      if forall i | 0 <= i < n - 1 :: StepAttests(run, steps[i], final.digest) {
        var st := EffectState(Ids(steps[..n - 1]), StartOf(steps, final, n - 1).digest, StepsUsage(steps[..n - 1]));
        PassAtStep(support, run, receipt, steps, completion, final.digest, n - 1, st);
      }
    } else {
      assert Ids(steps[..0]) == {} by {
        IdsOfNone(steps);
      }
    }
  }

  lemma IdsOfNone(steps: seq<EffectStep>)
    ensures Ids(steps[..0]) == {}
  {
  }

  /** A completed run passes the second checker exactly when it has at most 128 effects, every observed subject keeps the
      run's kind and locator, and no effect digest that equals the final subject's digest belongs to an effect on another subject. */
  lemma CompletedRunAttests(support: ContractSupport, run: AgentRunRequest, receipt: ReceiptBody, steps: seq<EffectStep>, final: Subject)
    requires CompletedLedger(support, run, receipt.events, Results(steps), steps, final)
    requires receipt.resultingSubject == final.digest
    requires UsageIsSafe(receipt.usage) && AtMost(StepsUsage(steps), receipt.usage)
    ensures CheckEffects(support, run, receipt, Records(steps)).None? <==>
            && |steps| <= MAX_EFFECTS
            && (forall i | 0 <= i < |steps| :: StepKeepsScope(run, steps[i]))
            && (forall i | 0 <= i < |steps| :: !CollidesWithCompletion(steps[i], final.digest))
  {
    hide StepAttests, CollidesWithCompletion, StepKeepsScope, Order, CheckEffectsFrom, CompletedLedger;
    PassDecides(support, run, receipt, steps, final);
    AttestsSplits(run, steps, final.digest);
  }

  /** The order is the steps', and the pass over all of them succeeds exactly when each attests. */
  lemma PassDecides(support: ContractSupport, run: AgentRunRequest, receipt: ReceiptBody, steps: seq<EffectStep>, final: Subject)
    requires CompletedLedger(support, run, receipt.events, Results(steps), steps, final)
    requires UsageIsSafe(receipt.usage) && AtMost(StepsUsage(steps), receipt.usage)
    ensures Order(receipt.events) == Digests(steps)
    ensures var checked := CheckEffectsFrom(support, run, receipt, Digests(steps), Records(steps));
            if forall i | 0 <= i < |steps| :: StepAttests(run, steps[i], final.digest) then
              checked.Success? && checked.value.subject == final.digest && checked.value.sums == StepsUsage(steps)
            else checked.Failure?
  {
    hide StepSucceeded, StepsChain, AreDistinctEffects, StepAttests, KeepsScope, Mentions, Blocks, Order, CheckEffectsFrom, Records;
    hide StepsUsage, IsCompletedMentions, Digests, Results, Requests, Ids;
    var completion := CompletionOf(support, run, receipt.events, steps, final);
    CompletedOrder(support.hashes, receipt.events, steps, completion, final.digest);
    PassOverSteps(support, run, receipt, steps, completion, final, |steps|);
    assert Records(steps)[..|steps|] == Records(steps) && steps[..|steps|] == steps;
  }

  lemma AttestsSplits(run: AgentRunRequest, steps: seq<EffectStep>, final: string)
    ensures (forall i | 0 <= i < |steps| :: StepAttests(run, steps[i], final)) <==>
            && (forall i | 0 <= i < |steps| :: StepKeepsScope(run, steps[i]))
            && (forall i | 0 <= i < |steps| :: !CollidesWithCompletion(steps[i], final))
  {
    hide StepKeepsScope, CollidesWithCompletion;
  }

  lemma CompletionOf(support: ContractSupport, run: AgentRunRequest, events: seq<RunEvent>, steps: seq<EffectStep>, final: Subject)
    returns (completion: RunEvent)
    requires CompletedLedger(support, run, events, Results(steps), steps, final)
    ensures IsCompletedMentions(support.hashes, Mentions(events), steps, completion, final.digest)
  {
    hide StepSucceeded, StepsChain, AreDistinctEffects, Mentions, Blocks, IsCompletionOf;
    completion :| IsCompletionOf(completion, final.digest) && Mentions(events) == Blocks(support.hashes, steps) + [completion];
    DigestsAreDistinct(support, run, steps);
  }

  lemma DigestsAreDistinct(support: ContractSupport, run: AgentRunRequest, steps: seq<EffectStep>)
    requires AreDistinctEffects(support.hashes, Requests(steps))
    requires forall i | 0 <= i < |steps| :: StepSucceeded(support, run, steps[i])
    ensures forall j, k | 0 <= j < k < |steps| :: steps[j].cleared.effectDigest != steps[k].cleared.effectDigest
  {
    hide VerifyResult, CheckEffectRequest, GatesAllow, IsGateDecision;
    forall j, k | 0 <= j < k < |steps| ensures steps[j].cleared.effectDigest != steps[k].cleared.effectDigest {
      assert StepSucceeded(support, run, steps[j]) && StepSucceeded(support, run, steps[k]);
      assert support.hashes.effect(Requests(steps)[j]) != support.hashes.effect(Requests(steps)[k]);
    }
  }

  lemma {:induction false} NoInterruptions(events: seq<RunEvent>)
    requires Interruptions(events) == 0
    ensures forall e | e in events :: !e.Interruption?
  {
    if events != [] {
      NoInterruptions(events[..|events| - 1]);
      assert events == events[..|events| - 1] + [events[|events| - 1]];
    }
  }

  /** A statement that pairs a completed run with a fresh observation of its final subject is accepted under the same condition. */
  lemma CompletedStatementIsAccepted(support: ContractSupport, run: AgentRunRequest, receipt: Receipt, steps: seq<EffectStep>, final: Subject)
    requires CompletedLedger(support, run, receipt.body.events, Results(steps), steps, final)
    requires VerifyReceipt(support, run, receipt) && receipt.body.terminalStatus == Completed
    requires Interruptions(receipt.body.events) == 0 && receipt.body.resultingSubject == final.digest
    requires UsageIsSafe(receipt.body.usage) && AtMost(StepsUsage(steps), receipt.body.usage)
    ensures CheckStatement(support, Statement(run, receipt, Records(steps), final)).None? <==>
            && KeepsScope(run, final)
            && |steps| <= MAX_EFFECTS
            && (forall i | 0 <= i < |steps| :: StepKeepsScope(run, steps[i]))
            && (forall i | 0 <= i < |steps| :: !CollidesWithCompletion(steps[i], final.digest))
  {
    hide CompletedLedger, CheckEffects, KeepsScope, StepKeepsScope, CollidesWithCompletion, VerifyReceipt, Interruptions;
    CompletedRunAttests(support, run, receipt.body, steps, final);
    NoInterruptions(receipt.body.events);
  }

  lemma VerifiedUsageIsSafe(support: ContractSupport, run: AgentRunRequest, receipt: Receipt)
    requires VerifyReceipt(support, run, receipt)
    ensures UsageIsSafe(receipt.body.usage)
  {
    hide ReplayEvents, CheckFinal, CheckRequest;
  }

  /** What the engine completed under at most 128 effects, with every observed subject at the run's kind and locator, is
      accepted by the second checker unless an effect digest collides with the final subject's. */
  lemma CompletedRunIsAttested(engine: RunEngine.AgentRunEngine, run: AgentRunRequest, x: RunEngine.Execution, steps: seq<EffectStep>, final: Subject)
    requires engine.CompletedRun(run, x, steps, final) && VerifyReceipt(engine.support.contracts, run, x.receipt)
    requires x.receipt.body.terminalStatus == Completed && Interruptions(x.receipt.body.events) == 0
    requires |steps| <= MAX_EFFECTS && KeepsScope(run, final) && forall i | 0 <= i < |steps| :: StepKeepsScope(run, steps[i])
    ensures CheckStatement(engine.support.contracts, Statement(run, x.receipt, Records(steps), final)).None? <==>
            forall i | 0 <= i < |steps| :: !CollidesWithCompletion(steps[i], final.digest)
  {
    hide CompletedLedger, VerifyReceipt, CheckStatement, CollidesWithCompletion, StepKeepsScope, KeepsScope, Interruptions, StepsUsage;
    LedgerResults(engine.support.contracts, run, x.receipt.body.events, x.results, steps, final);
    VerifiedUsageIsSafe(engine.support.contracts, run, x.receipt);
    CompletedStatementIsAccepted(engine.support.contracts, run, x.receipt, steps, final);
  }

  lemma LedgerResults(support: ContractSupport, run: AgentRunRequest, events: seq<RunEvent>, results: seq<EffectResult>, steps: seq<EffectStep>, final: Subject)
    requires CompletedLedger(support, run, events, results, steps, final)
    ensures results == Results(steps)
  {
  }
}

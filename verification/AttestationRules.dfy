/** When a statement is acceptable, stated on the events of its receipt. */
module AttestationRules {
  import opened Text
  import opened Contracts
  import opened UsageArithmetic
  import opened ReceiptChecker
  import opened ReceiptTrace
  import opened ResultChecker
  import opened ResultRules
  import opened Attestation

  // ---- The order of the effects ----

  /** A decision about an effect; those at the completion boundary are about the subject. */
  predicate Opens(e: RunEvent, digest: string) {
    && e.EffectDecision? && e.effectDigest == digest
    && !(e.gate == WorkflowGate && e.effectDigest == e.subjectDigest
         && e.decision.code in {Fixed(CompletionAuthorized), Fixed(MutationNotAuthorized), Fixed(VerificationFailed)})
  }

  predicate FirstAt(events: seq<RunEvent>, digest: string, j: nat) {
    j < |events| && Opens(events[j], digest) && forall k | 0 <= k < j :: !Opens(events[k], digest)
  }

  /** Each effect once, at its first decision, in that order, and none forgotten. */
  predicate IsOrderAt(events: seq<RunEvent>, digests: seq<string>, firsts: seq<nat>) {
    && |firsts| == |digests|
    && (forall i | 0 <= i < |firsts| :: FirstAt(events, digests[i], firsts[i]))
    && (forall h, i | 0 <= h < i < |firsts| :: firsts[h] < firsts[i])
    && forall j | 0 <= j < |events| && events[j].EffectDecision? && Opens(events[j], events[j].effectDigest) :: events[j].effectDigest in digests
  }

  ghost predicate IsOrderOfEffects(events: seq<RunEvent>, digests: seq<string>) {
    exists firsts :: IsOrderAt(events, digests, firsts)
  }

  lemma {:induction false} OrderMembers(events: seq<RunEvent>, digest: string)
    ensures digest in Order(events) <==> exists k | 0 <= k < |events| :: Opens(events[k], digest)
  {
    if events != [] {
      var n := |events| - 1;
      OrderMembers(events[..n], digest);
      assert forall k | 0 <= k < n :: events[..n][k] == events[k];
      if k :| 0 <= k < |events| && Opens(events[k], digest) {
        assert k < n ==> Opens(events[..n][k], digest);
      }
    }
  }

  lemma {:induction false} OrderIsAtFirsts(events: seq<RunEvent>) returns (firsts: seq<nat>)
    ensures IsOrderAt(events, Order(events), firsts)
  {
    if events == [] {
      firsts := [];
    } else {
      var n := |events| - 1;
      var e := events[n];
      firsts := OrderIsAtFirsts(events[..n]);
      FirstsStay(events, Order(events[..n]), firsts);
      if e.EffectDecision? && Opens(e, e.effectDigest) {
        OrderMembers(events[..n], e.effectDigest);
        assert forall k | 0 <= k < n :: events[..n][k] == events[k];
        if e.effectDigest !in Order(events[..n]) {
          assert FirstAt(events, e.effectDigest, n);
          firsts := firsts + [n];
        }
      }
    }
  }

  /** What is first in a prefix stays first. */
  lemma FirstsStay(events: seq<RunEvent>, digests: seq<string>, firsts: seq<nat>)
    requires events != [] && IsOrderAt(events[..|events| - 1], digests, firsts)
    ensures forall i | 0 <= i < |firsts| :: firsts[i] < |events| - 1 && FirstAt(events, digests[i], firsts[i])
  {
    forall i | 0 <= i < |firsts| ensures firsts[i] < |events| - 1 && FirstAt(events, digests[i], firsts[i]) {
      assert FirstAt(events[..|events| - 1], digests[i], firsts[i]);
    }
  }

  /** The order of one event more. */
  lemma OrderGrows(events: seq<RunEvent>)
    requires events != []
    ensures var n := |events| - 1;
            var earlier, e := Order(events[..n]), events[n];
            Order(events) == if e.EffectDecision? && Opens(e, e.effectDigest) && e.effectDigest !in earlier then earlier + [e.effectDigest] else earlier
  {
  }

  lemma {:induction false} FirstsDetermineOrder(events: seq<RunEvent>, digests: seq<string>, firsts: seq<nat>)
    requires IsOrderAt(events, digests, firsts)
    ensures digests == Order(events)
    decreases |events|
  {
    if events == [] {
      assert firsts == [];
    } else {
      hide IsOrderAt, Order;
      FirstsCount(events, digests, firsts);
      var n, last := |events| - 1, |firsts| - 1;
      var earlier := events[..n];
      OrderGrows(events);
      if firsts != [] && firsts[last] == n {
        LastIsNew(events, digests, firsts);
        OrderMembers(earlier, digests[last]);
        FirstsDetermineOrder(earlier, digests[..last], firsts[..last]);
        OpensOne(events[n], digests[last]);
        assert digests == digests[..last] + [digests[last]];
      } else {
        LastIsOld(events, digests, firsts);
        FirstsDetermineOrder(earlier, digests, firsts);
      }
    }
  }

  lemma FirstsCount(events: seq<RunEvent>, digests: seq<string>, firsts: seq<nat>)
    requires IsOrderAt(events, digests, firsts)
    ensures |firsts| == |digests|
  {
  }

  lemma OpensOne(e: RunEvent, digest: string)
    requires Opens(e, digest)
    ensures e.EffectDecision? && e.effectDigest == digest
  {
  }

  lemma LastIsOld(events: seq<RunEvent>, digests: seq<string>, firsts: seq<nat>)
    requires IsOrderAt(events, digests, firsts) && events != [] && (firsts == [] || firsts[|firsts| - 1] != |events| - 1)
    ensures IsOrderAt(events[..|events| - 1], digests, firsts)
    ensures var e := events[|events| - 1]; e.EffectDecision? && Opens(e, e.effectDigest) ==> e.effectDigest in digests
  {
    var n := |events| - 1;
    var earlier := events[..n];
    assert forall k | 0 <= k < n :: earlier[k] == events[k];
    forall i | 0 <= i < |firsts| ensures FirstAt(earlier, digests[i], firsts[i]) {
      assert FirstAt(events, digests[i], firsts[i]);
      assert firsts[i] <= firsts[|firsts| - 1];
    }
    forall j | 0 <= j < n && earlier[j].EffectDecision? && Opens(earlier[j], earlier[j].effectDigest) ensures earlier[j].effectDigest in digests {
      assert events[j].effectDigest in digests;
    }
  }

  /** Leaving out an effect that opens with the last event leaves out nothing before. */
  lemma LastIsNew(events: seq<RunEvent>, digests: seq<string>, firsts: seq<nat>)
    requires IsOrderAt(events, digests, firsts) && firsts != [] && firsts[|firsts| - 1] == |events| - 1
    ensures var n, last := |events| - 1, |firsts| - 1;
            && IsOrderAt(events[..n], digests[..last], firsts[..last])
            && Opens(events[n], digests[last]) && forall k | 0 <= k < n :: !Opens(events[..n][k], digests[last])
  {
    var n, last := |events| - 1, |firsts| - 1;
    var earlier := events[..n];
    assert forall k | 0 <= k < n :: earlier[k] == events[k];
    assert FirstAt(events, digests[last], n);
    forall j | 0 <= j < n && earlier[j].EffectDecision? && Opens(earlier[j], earlier[j].effectDigest) ensures earlier[j].effectDigest in digests[..last] {
      assert events[j].effectDigest != digests[last];
      assert digests == digests[..last] + [digests[last]];
    }
  }

  /** The collected order is the only one there is. */
  lemma OrderIsOrderOfEffects(events: seq<RunEvent>, digests: seq<string>)
    ensures digests == Order(events) <==> IsOrderOfEffects(events, digests)
  {
    hide Order, IsOrderAt;
    var firsts := OrderIsAtFirsts(events);
    if found :| IsOrderAt(events, digests, found) {
      FirstsDetermineOrder(events, digests, found);
    }
  }

  // ---- One effect in the ledger ----

  predicate Executes(e: RunEvent, digest: string) {
    e.ToolExecution? && e.executedDigest == digest
  }

  predicate Mutates(e: RunEvent, digest: string) {
    e.Mutation? && e.mutatedDigest == digest
  }

  predicate Decides(e: RunEvent, digest: string) {
    e.EffectDecision? && e.effectDigest == digest
  }

  predicate ExecutedOnceAt(events: seq<RunEvent>, digest: string, x: nat) {
    x < |events| && Executes(events[x], digest) && forall j | 0 <= j < |events| && Executes(events[j], digest) :: j == x
  }

  predicate MutatedOnceAt(events: seq<RunEvent>, digest: string, m: nat) {
    m < |events| && Mutates(events[m], digest) && forall j | 0 <= j < |events| && Mutates(events[j], digest) :: j == m
  }

  /** The execution names the effect, the capability and the cited decision, and carries the digest of the presented result. */
  predicate ExecutionIsOf(e: RunEvent, digest: string, record: EffectRecord) {
    && e.ToolExecution? && e.executedDigest == digest && e.actionDigest == digest
    && e.capabilityDigest == record.request.capability.digest
    && e.executionDecisionId == record.result.body.cited.decisionId
    && exists r | r in e.evidence :: r.evidenceType == ToolExecutionEvidence && r.digest == record.result.digest
  }

  /** This gate allowed the effect for its subject before event `x`. */
  predicate AllowedBefore(events: seq<RunEvent>, digest: string, subject: string, gate: Gate, x: nat)
    requires x <= |events|
  {
    exists j | 0 <= j < x :: Decides(events[j], digest) && events[j].gate == gate && events[j].subjectDigest == subject && events[j].decision.outcome == Allow
  }

  /** The boundary authorised the mutation before event `x`. */
  predicate AuthorizedBefore(events: seq<RunEvent>, digest: string, subject: string, x: nat)
    requires x <= |events|
  {
    exists j | 0 <= j < x ::
      && Decides(events[j], digest) && events[j].gate == WorkflowGate && events[j].subjectDigest == subject
      && events[j].decision.outcome == Allow && events[j].decision.code == Fixed(MutationAuthorized)
  }

  /** Every decision about the effect allows it for its subject, and the required gates decided before it ran. */
  predicate IsAdmittedAt(events: seq<RunEvent>, digest: string, request: EffectRequest, x: nat)
    requires x <= |events|
  {
    var subject := request.subject.digest;
    && (forall j | 0 <= j < |events| && Decides(events[j], digest) :: events[j].subjectDigest == subject && events[j].decision.outcome == Allow)
    && AllowedBefore(events, digest, subject, PermissionGate, x)
    && AllowedBefore(events, digest, subject, ToolTrustGate, x)
    && AllowedBefore(events, digest, subject, RuntimeGate, x)
    && (request.effectClass.MutationEffect? ==> AuthorizedBefore(events, digest, subject, x))
  }

  predicate IsDeclined(record: EffectRecord) {
    record.result.body.status in {AuthorityAwaited, Denied}
  }

  /** A mutation that was attempted and whose outcome was seen changes the subject. */
  predicate ChangesSubject(record: EffectRecord) {
    !IsDeclined(record) && record.request.effectClass.MutationEffect? && record.result.body.postSubject.Some?
  }

  /** What the ledger must show of an effect and its presented result. */
  predicate LedgerShows(events: seq<RunEvent>, digest: string, record: EffectRecord) {
    var body := record.result.body;
    && (exists j | 0 <= j < |events| ::
          && Decides(events[j], digest) && events[j].decisionId == body.cited.decisionId && events[j].gate == body.cited.gate
          && events[j].subjectDigest == body.cited.subjectDigest && events[j].decision == body.cited.decision)
    && (if IsDeclined(record) then forall j | 0 <= j < |events| :: !Executes(events[j], digest)
        else
          && body.usage.toolCalls >= 1
          && exists x | 0 <= x < |events| ::
               ExecutedOnceAt(events, digest, x) && ExecutionIsOf(events[x], digest, record) && IsAdmittedAt(events, digest, record.request, x))
    && (if ChangesSubject(record) then
          exists m | 0 <= m < |events| ::
            && MutatedOnceAt(events, digest, m)
            && events[m].before == record.request.subject.digest && events[m].after == body.postSubject.value.digest
        else forall j | 0 <= j < |events| :: !Mutates(events[j], digest))
  }

  // ---- What the filters find ----

  lemma {:induction false} FilterHolds<T>(s: seq<T>, keep: T -> bool)
    ensures forall x | x in Filter(s, keep) :: x in s && keep(x)
    ensures forall x | x in s && keep(x) :: x in Filter(s, keep)
  {
    if s != [] {
      FilterHolds(s[..|s| - 1], keep);
      assert s == s[..|s| - 1] + [s[|s| - 1]];
    }
  }

  lemma FoundIsThere<T>(s: seq<T>, keep: T -> bool)
    ensures Filter(s, keep) == [] <==> forall j | 0 <= j < |s| :: !keep(s[j])
  {
    FilterHolds(s, keep);
    var found := Filter(s, keep);
    if found != [] {
      assert found[0] in found && found[0] in s;
      var j :| 0 <= j < |s| && s[j] == found[0];
      assert keep(s[j]);
    }
    forall j | 0 <= j < |s| && found == [] ensures !keep(s[j]) {
      assert s[j] !in found;
    }
  }

  lemma {:induction false} FilterFindsOne<T>(s: seq<T>, keep: T -> bool, x: nat)
    requires x < |s| && keep(s[x]) && forall j | 0 <= j < |s| && keep(s[j]) :: j == x
    ensures Filter(s, keep) == [s[x]]
  {
    var earlier := s[..|s| - 1];
    assert forall j | 0 <= j < |earlier| :: earlier[j] == s[j];
    if x < |earlier| {
      FilterFindsOne(earlier, keep, x);
    } else {
      FoundIsThere(earlier, keep);
    }
  }

  lemma {:induction false} FilterFindsTwo<T>(s: seq<T>, keep: T -> bool, x: nat, y: nat)
    requires x < y < |s| && keep(s[x]) && keep(s[y])
    ensures |Filter(s, keep)| >= 2
  {
    var earlier := s[..|s| - 1];
    if y < |earlier| {
      FilterFindsTwo(earlier, keep, x, y);
    } else {
      FilterHolds(earlier, keep);
      assert earlier[x] in earlier;
    }
  }

  lemma FilterMeans<T>(s: seq<T>, keep: T -> bool)
    ensures Filter(s, keep) == [] <==> forall j | 0 <= j < |s| :: !keep(s[j])
    ensures |Filter(s, keep)| == 1 <==> exists x | 0 <= x < |s| :: keep(s[x]) && forall j | 0 <= j < |s| && keep(s[j]) :: j == x
  {
    hide Filter;
    FoundIsThere(s, keep);
    if |Filter(s, keep)| == 1 {
      var x :| 0 <= x < |s| && keep(s[x]);
      forall j | 0 <= j < |s| && keep(s[j]) ensures j == x {
        if j < x {
          FilterFindsTwo(s, keep, j, x);
        } else if x < j {
          FilterFindsTwo(s, keep, x, j);
        }
      }
    }
    if x :| 0 <= x < |s| && keep(s[x]) && forall j | 0 <= j < |s| && keep(s[j]) :: j == x {
      FilterFindsOne(s, keep, x);
    }
  }

  lemma ExecutionsMean(events: seq<RunEvent>, digest: string)
    ensures ExecutionsOf(events, digest) == [] <==> forall j | 0 <= j < |events| :: !Executes(events[j], digest)
    ensures |ExecutionsOf(events, digest)| == 1 <==> exists x | 0 <= x < |events| :: ExecutedOnceAt(events, digest, x)
    ensures forall x: nat | ExecutedOnceAt(events, digest, x) :: ExecutionsOf(events, digest) == [events[x]]
  {
    hide Filter;
    var keep := (e: RunEvent) => e.ToolExecution? && e.executedDigest == digest;
    FilterMeans(events, keep);
    forall x: nat | ExecutedOnceAt(events, digest, x) ensures ExecutionsOf(events, digest) == [events[x]] {
      FilterFindsOne(events, keep, x);
    }
    if |Filter(events, keep)| == 1 {
      var x :| 0 <= x < |events| && keep(events[x]) && forall j | 0 <= j < |events| && keep(events[j]) :: j == x;
      assert ExecutedOnceAt(events, digest, x);
    }
  }

  lemma MutationsMean(events: seq<RunEvent>, digest: string)
    ensures MutationsOf(events, digest) == [] <==> forall j | 0 <= j < |events| :: !Mutates(events[j], digest)
    ensures |MutationsOf(events, digest)| == 1 <==> exists m | 0 <= m < |events| :: MutatedOnceAt(events, digest, m)
    ensures forall m: nat | MutatedOnceAt(events, digest, m) :: MutationsOf(events, digest) == [events[m]]
  {
    hide Filter;
    var keep := (e: RunEvent) => e.Mutation? && e.mutatedDigest == digest;
    FilterMeans(events, keep);
    forall m: nat | MutatedOnceAt(events, digest, m) ensures MutationsOf(events, digest) == [events[m]] {
      FilterFindsOne(events, keep, m);
    }
    if |Filter(events, keep)| == 1 {
      var m :| 0 <= m < |events| && keep(events[m]) && forall j | 0 <= j < |events| && keep(events[j]) :: j == m;
      assert MutatedOnceAt(events, digest, m);
    }
  }

  lemma DecisionsMean(events: seq<RunEvent>, digest: string)
    ensures forall e :: e in DecisionsOf(events, digest) <==> e in events && Decides(e, digest)
  {
    hide Filter;
    FilterHolds(events, (e: RunEvent) => e.EffectDecision? && e.effectDigest == digest);
  }

  // ---- One effect passes ----

  lemma CitesMeans(events: seq<RunEvent>, digest: string, cited: CitedDecision)
    ensures (exists e | e in events :: CitesEvent(e, cited, digest)) <==>
            exists j | 0 <= j < |events| ::
              && Decides(events[j], digest) && events[j].decisionId == cited.decisionId && events[j].gate == cited.gate
              && events[j].subjectDigest == cited.subjectDigest && events[j].decision == cited.decision
  {
    if e :| e in events && CitesEvent(e, cited, digest) {
      var j :| 0 <= j < |events| && events[j] == e;
      assert Decides(events[j], digest);
    }
    if j :| 0 <= j < |events|
            && Decides(events[j], digest) && events[j].decisionId == cited.decisionId && events[j].gate == cited.gate
            && events[j].subjectDigest == cited.subjectDigest && events[j].decision == cited.decision
    {
      assert events[j] in events && CitesEvent(events[j], cited, digest);
    }
  }

  /** In a ledger numbered from one, admission by the filtered decisions is admission at a position. */
  lemma AdmissionMeans(events: seq<RunEvent>, digest: string, request: EffectRequest, x: nat)
    requires x < |events| && forall j | 0 <= j < |events| :: events[j].sequence == j + 1
    ensures IsAdmittedBy(DecisionsOf(events, digest), request, events[x].sequence) <==> IsAdmittedAt(events, digest, request, x)
  {
    hide DecisionsOf;
    DecisionsMean(events, digest);
    var decisions, subject := DecisionsOf(events, digest), request.subject.digest;
    if IsAdmittedBy(decisions, request, events[x].sequence) {
      forall j | 0 <= j < |events| && Decides(events[j], digest) ensures events[j].subjectDigest == subject && events[j].decision.outcome == Allow {
        assert events[j] in decisions;
      }
      forall gate | gate in RequiredGates(request.effectClass)
        ensures AllowedBefore(events, digest, subject, gate, x) && (gate.WorkflowGate? ==> AuthorizedBefore(events, digest, subject, x))
      {
        var e :| e in decisions && Admits(e, gate, events[x].sequence);
        var j :| 0 <= j < |events| && events[j] == e;
        assert Decides(events[j], digest);
      }
    }
    if IsAdmittedAt(events, digest, request, x) {
      forall gate | gate in RequiredGates(request.effectClass) ensures exists e | e in decisions :: Admits(e, gate, events[x].sequence) {
        if gate.WorkflowGate? {
          var j :| 0 <= j < x && Decides(events[j], digest) && events[j].gate == WorkflowGate && events[j].subjectDigest == subject
                   && events[j].decision.outcome == Allow && events[j].decision.code == Fixed(MutationAuthorized);
          assert events[j] in decisions && Admits(events[j], gate, events[x].sequence);
        } else {
          assert AllowedBefore(events, digest, subject, gate, x);
          var j :| 0 <= j < x && Decides(events[j], digest) && events[j].gate == gate && events[j].subjectDigest == subject && events[j].decision.outcome == Allow;
          assert events[j] in decisions && Admits(events[j], gate, events[x].sequence);
        }
      }
    }
  }

  /** The subject after an effect. */
  function SubjectAfter(record: EffectRecord): string {
    if ChangesSubject(record) then record.result.body.postSubject.value.digest else record.request.subject.digest
  }

  lemma ExecutionPassesExactly(events: seq<RunEvent>, digest: string, record: EffectRecord)
    requires forall j | 0 <= j < |events| :: events[j].sequence == j + 1
    ensures var executions := ExecutionsOf(events, digest);
            && |executions| == 1 && IsAdmittedBy(DecisionsOf(events, digest), record.request, executions[0].sequence)
            && RetainsResult(executions[0], digest, record) <==>
            exists x | 0 <= x < |events| ::
              ExecutedOnceAt(events, digest, x) && ExecutionIsOf(events[x], digest, record) && IsAdmittedAt(events, digest, record.request, x)
  {
    hide ExecutionsOf, DecisionsOf, IsAdmittedBy, IsAdmittedAt;
    ExecutionsMean(events, digest);
    forall x: nat | ExecutedOnceAt(events, digest, x)
      ensures IsAdmittedBy(DecisionsOf(events, digest), record.request, events[x].sequence) <==> IsAdmittedAt(events, digest, record.request, x)
      ensures ExecutionsOf(events, digest) == [events[x]]
    {
      AdmissionMeans(events, digest, record.request, x);
    }
    if |ExecutionsOf(events, digest)| == 1 {
      var x :| 0 <= x < |events| && ExecutedOnceAt(events, digest, x);
      assert RetainsResult(events[x], digest, record) <==> ExecutionIsOf(events[x], digest, record);
    }
  }

  lemma MutationPassesExactly(events: seq<RunEvent>, digest: string, before: string, after: string)
    ensures var mutations := MutationsOf(events, digest);
            |mutations| == 1 && mutations[0].Mutation? && mutations[0].before == before && mutations[0].after == after <==>
            exists m | 0 <= m < |events| :: MutatedOnceAt(events, digest, m) && events[m].before == before && events[m].after == after
  {
    hide MutationsOf;
    MutationsMean(events, digest);
    if |MutationsOf(events, digest)| == 1 {
      var m :| 0 <= m < |events| && MutatedOnceAt(events, digest, m);
      assert MutationsOf(events, digest) == [events[m]];
    }
  }

  lemma LedgerPassesExactly(events: seq<RunEvent>, digest: string, record: EffectRecord)
    requires forall j | 0 <= j < |events| :: events[j].sequence == j + 1
    ensures var checked := CheckLedgerOf(events, digest, record, record.request.subject.digest);
            && (checked.Success? <==> LedgerShows(events, digest, record))
            && (checked.Success? ==> checked.value == SubjectAfter(record))
  {
    hide ExecutionsOf, MutationsOf, DecisionsOf, IsAdmittedBy, IsAdmittedAt, CitesEvent, ExecutedOnceAt, MutatedOnceAt, RetainsResult, ExecutionIsOf;
    var body := record.result.body;
    CitesMeans(events, digest, body.cited);
    ExecutionsMean(events, digest);
    ExecutionPassesExactly(events, digest, record);
    MutationsMean(events, digest);
    assert IsDeclined(record) <==> !body.status.IsAttempt();
    if ChangesSubject(record) {
      MutationPassesExactly(events, digest, record.request.subject.digest, body.postSubject.value.digest);
    }
  }

  // ---- All effects ----

  function DigestsOf(support: ContractSupport, effects: seq<EffectRecord>): (digests: seq<string>)
    ensures |digests| == |effects| && forall i | 0 <= i < |effects| :: digests[i] == support.hashes.effect(effects[i].request)
  {
    seq(|effects|, i requires 0 <= i < |effects| => support.hashes.effect(effects[i].request))
  }

  /** The subject that the effects before `n` have left. */
  function SubjectBefore(run: AgentRunRequest, effects: seq<EffectRecord>, n: nat): string
    requires n <= |effects|
  {
    if n == 0 then run.subject.digest else SubjectAfter(effects[n - 1])
  }

  function TotalUsage(effects: seq<EffectRecord>, n: nat): Usage
    requires n <= |effects|
  {
    if n == 0 then Usage(0, 0, 0, 0)
    else
      var earlier, usage := TotalUsage(effects, n - 1), effects[n - 1].result.body.usage;
      Usage(earlier.cost + usage.cost, earlier.elapsed + usage.elapsed, earlier.tokens + usage.tokens, earlier.toolCalls + usage.toolCalls)
  }

  predicate IsSameThing(a: Subject, b: Subject) {
    a.kind == b.kind && a.locator == b.locator
  }

  /** An admissible request about the run's subject, with its own result, which was not tampered with. */
  predicate RecordIsGenuine(support: ContractSupport, run: AgentRunRequest, record: EffectRecord) {
    var request, result := record.request, record.result;
    && EffectIsValid(support, run, request)
    && IsDigest(result.digest) && result.digest == support.hashes.result(result.body) && ResultIsLegal(support, run, request, result.body)
    && IsSameThing(request.subject, run.subject) && IsSameThing(result.body.preSubject, run.subject)
    && (result.body.postSubject.Some? ==> IsSameThing(result.body.postSubject.value, run.subject))
  }

  lemma GenuineIsChecked(support: ContractSupport, run: AgentRunRequest, record: EffectRecord)
    ensures RecordIsGenuine(support, run, record) <==>
            && RecordKeepsScope(run, record) && CheckEffectRequest(support, run, record.request).None?
            && VerifyResult(support, run, record.request, record.result)
  {
    hide CheckEffectRequest, CheckResultBody, EffectIsValid, ResultIsLegal, IsDigest;
    assert ValidateEffectRequest(support, run, record.request).Success? <==> EffectIsValid(support, run, record.request);
    CheckerDecidesResult(support, run, record.request, record.result.body);
  }

  /** The i-th effect is genuine, next in number, identity and subject, and shown by the ledger. */
  predicate RecordIsLegal(support: ContractSupport, run: AgentRunRequest, receipt: ReceiptBody, effects: seq<EffectRecord>, i: nat)
    requires i < |effects|
  {
    var request := effects[i].request;
    && RecordIsGenuine(support, run, effects[i])
    && request.effectSequence == i + 1
    && (forall h | 0 <= h < i :: effects[h].request.effectId != request.effectId)
    && request.subject.digest == SubjectBefore(run, effects, i)
    && LedgerShows(receipt.events, support.hashes.effect(request), effects[i])
    && (receipt.terminalStatus == Completed ==> effects[i].result.body.status == Executed)
  }

  ghost predicate EffectsAreLegal(support: ContractSupport, run: AgentRunRequest, receipt: ReceiptBody, effects: seq<EffectRecord>) {
    && |effects| <= 128
    && IsOrderOfEffects(receipt.events, DigestsOf(support, effects))
    && (forall i | 0 <= i < |effects| :: RecordIsLegal(support, run, receipt, effects, i))
    && SubjectBefore(run, effects, |effects|) == receipt.resultingSubject
    && AtMost(TotalUsage(effects, |effects|), receipt.usage)
  }

  predicate TotalsFit(effects: seq<EffectRecord>, n: nat)
    requires n <= |effects|
  {
    forall k | 0 <= k <= n :: AtMost(TotalUsage(effects, k), Usage(MAX_U64, MAX_U64, MAX_U64, MAX_U64))
  }

  /** What the pass carries after `n` effects. */
  predicate PassDescribes(st: EffectState, run: AgentRunRequest, effects: seq<EffectRecord>, n: nat)
    requires n <= |effects|
  {
    && st.ids == IdsBefore(effects, n)
    && st.subject == SubjectBefore(run, effects, n)
    && st.sums == TotalUsage(effects, n)
  }

  function IdsBefore(effects: seq<EffectRecord>, n: nat): set<string>
    requires n <= |effects|
  {
    set h | 0 <= h < n :: effects[h].request.effectId
  }

  lemma IdsGrow(effects: seq<EffectRecord>, n: nat)
    requires n < |effects|
    ensures IdsBefore(effects, n + 1) == IdsBefore(effects, n) + {effects[n].request.effectId}
    ensures effects[n].request.effectId in IdsBefore(effects, n) <==> exists h | 0 <= h < n :: effects[h].request.effectId == effects[n].request.effectId
  {
  }

  lemma EffectPassesExactly(
    support: ContractSupport, run: AgentRunRequest, receipt: ReceiptBody, order: seq<string>, effects: seq<EffectRecord>, n: nat, st: EffectState)
    requires n < |effects| <= |order| && PassDescribes(st, run, effects, n)
    requires forall j | 0 <= j < |receipt.events| :: receipt.events[j].sequence == j + 1
    ensures var checked := CheckEffect(support, run, receipt, order, n, st, effects[n]);
            && (checked.Success? <==>
                && RecordIsLegal(support, run, receipt, effects, n) && order[n] == support.hashes.effect(effects[n].request)
                && AtMost(TotalUsage(effects, n + 1), Usage(MAX_U64, MAX_U64, MAX_U64, MAX_U64)))
            && (checked.Success? ==> PassDescribes(checked.value, run, effects, n + 1))
  {
    hide CheckEffectRequest, VerifyResult, RecordIsGenuine, RecordKeepsScope, LedgerShows, CheckLedgerOf, SubjectAfter, IdsBefore;
    var record := effects[n];
    GenuineIsChecked(support, run, record);
    LedgerPassesExactly(receipt.events, support.hashes.effect(record.request), record);
    IdsGrow(effects, n);
    assert Plus(st.sums, record.result.body.usage) == TotalUsage(effects, n + 1);
  }

  /** The pass over a prefix of the effects succeeds exactly when each of them is legal where it stands. */
  lemma {:induction false} PassIsLegality(
    support: ContractSupport, run: AgentRunRequest, receipt: ReceiptBody, order: seq<string>, effects: seq<EffectRecord>, n: nat)
    requires n <= |effects| <= |order|
    requires forall j | 0 <= j < |receipt.events| :: receipt.events[j].sequence == j + 1
    ensures var checked := CheckEffectsFrom(support, run, receipt, order, effects[..n]);
            && (checked.Success? <==>
                && (forall i | 0 <= i < n :: RecordIsLegal(support, run, receipt, effects, i))
                && (forall i | 0 <= i < n :: order[i] == support.hashes.effect(effects[i].request))
                && TotalsFit(effects, n))
            && (checked.Success? ==> PassDescribes(checked.value, run, effects, n))
  {
    hide CheckEffect, RecordIsLegal;
    if n > 0 {
      PassIsLegality(support, run, receipt, order, effects, n - 1);
      assert effects[..n][..n - 1] == effects[..n - 1];
      var earlier := CheckEffectsFrom(support, run, receipt, order, effects[..n - 1]);
      if earlier.Success? {
        EffectPassesExactly(support, run, receipt, order, effects, n - 1, earlier.value);
      }
    }
  }

  lemma {:induction false} TotalsIncrease(effects: seq<EffectRecord>, k: nat, n: nat)
    requires k <= n <= |effects|
    ensures AtMost(TotalUsage(effects, k), TotalUsage(effects, n))
  {
    if k < n {
      TotalsIncrease(effects, k, n - 1);
    }
  }

  lemma EffectsPassExactly(support: ContractSupport, run: AgentRunRequest, receipt: ReceiptBody, effects: seq<EffectRecord>)
    requires forall j | 0 <= j < |receipt.events| :: receipt.events[j].sequence == j + 1
    requires UsageIsSafe(receipt.usage)
    ensures CheckEffects(support, run, receipt, effects).None? <==> EffectsAreLegal(support, run, receipt, effects)
  {
    hide CheckEffectsFrom, Order, IsOrderOfEffects, RecordIsLegal, TotalUsage, SubjectBefore;
    var order, n := Order(receipt.events), |effects|;
    OrderIsOrderOfEffects(receipt.events, DigestsOf(support, effects));
    if n <= |order| {
      PassIsLegality(support, run, receipt, order, effects, n);
      assert effects[..n] == effects;
    }
    forall k | 0 <= k <= n && AtMost(TotalUsage(effects, n), receipt.usage)
      ensures AtMost(TotalUsage(effects, k), Usage(MAX_U64, MAX_U64, MAX_U64, MAX_U64))
    {
      TotalsIncrease(effects, k, n);
    }
    assert |order| == n && (forall i | 0 <= i < n :: order[i] == support.hashes.effect(effects[i].request)) <==> order == DigestsOf(support, effects);
  }

  // ---- The statement ----

  /** A legal receipt that was not tampered with, effects that it shows, and a fresh observation of the subject. */
  ghost predicate StatementIsLegal(support: ContractSupport, s: Statement) {
    var body := s.receipt.body;
    && IsSameThing(s.observed, s.request.subject)
    && IsDigest(s.receipt.digest) && s.receipt.digest == support.hashes.receipt(body)
    && IsLegalTrace(support, s.request, body)
    && (body.terminalStatus != Interrupted ==> forall j | 0 <= j < |body.events| :: !body.events[j].Interruption?)
    && (body.terminalStatus == Completed ==> s.observed.digest == body.resultingSubject)
    && EffectsAreLegal(support, s.request, body, s.effects)
  }

  lemma LegalIsNumbered(support: ContractSupport, request: AgentRunRequest, body: ReceiptBody)
    requires IsLegalTrace(support, request, body)
    ensures forall j | 0 <= j < |body.events| :: body.events[j].sequence == j + 1
  {
    hide EventIsLegal;
    forall j | 0 <= j < |body.events| ensures body.events[j].sequence == j + 1 {
      LegalSequence(request, body.initialSubject, body.events, j);
    }
  }

  /** The second checker accepts a statement exactly when it is legal. */
  lemma CheckerDecidesStatement(support: ContractSupport, s: Statement)
    ensures CheckStatement(support, s).None? <==> StatementIsLegal(support, s)
  {
    hide CheckReceiptBody, CheckEffects, EffectsAreLegal, EventIsLegal, IsDigest;
    var body := s.receipt.body;
    CheckerDecidesLegality(support, s.request, body);
    if IsLegalTrace(support, s.request, body) {
      LegalIsNumbered(support, s.request, body);
      EffectsPassExactly(support, s.request, body, s.effects);
    }
    assert (exists e | e in body.events :: e.Interruption?) <==> exists j | 0 <= j < |body.events| :: body.events[j].Interruption?;
  }

  // ---- What a refusal says ----

  /** What is wrong with the i-th effect when it is refused with this error. */
  ghost predicate EffectFault(
    error: AttestationError, support: ContractSupport, run: AgentRunRequest, receipt: ReceiptBody, effects: seq<EffectRecord>, i: nat)
    requires i < |effects| == |Order(receipt.events)|
  {
    var request, result, events := effects[i].request, effects[i].result, receipt.events;
    var body, digest, n := result.body, support.hashes.effect(request), |events|;
    match error
    case EffectSubjectScope =>
      || !IsSameThing(request.subject, run.subject) || !IsSameThing(body.preSubject, run.subject)
      || (body.postSubject.Some? && !IsSameThing(body.postSubject.value, run.subject))
    case InvalidRequest => !EffectIsValid(support, run, request)
    case InvalidResult =>
      !(IsDigest(result.digest) && result.digest == support.hashes.result(body) && ResultIsLegal(support, run, request, body))
    case EffectOrderOrSubject =>
      || digest != Order(events)[i] || (exists h | 0 <= h < i :: effects[h].request.effectId == request.effectId)
      || request.effectSequence != i + 1 || request.subject.digest != SubjectBefore(run, effects, i)
    case EffectDecisionMismatch =>
      forall j | 0 <= j < n && Decides(events[j], digest) && events[j].decisionId == body.cited.decisionId ::
        events[j].gate != body.cited.gate || events[j].subjectDigest != body.cited.subjectDigest || events[j].decision != body.cited.decision
    case MissingKnownAttemptUsage => !IsDeclined(effects[i]) && body.usage.toolCalls == 0
    case ExecutionMismatch =>
      if IsDeclined(effects[i]) then exists j | 0 <= j < n :: Executes(events[j], digest)
      else forall x | 0 <= x < n :: !ExecutedOnceAt(events, digest, x)
    case GatesNotAdmitted => exists x | 0 <= x < n :: ExecutedOnceAt(events, digest, x) && !IsAdmittedAt(events, digest, request, x)
    case ResultEvidenceMismatch => exists x | 0 <= x < n :: ExecutedOnceAt(events, digest, x) && !ExecutionIsOf(events[x], digest, effects[i])
    case MutationMismatch =>
      if ChangesSubject(effects[i]) then forall m | 0 <= m < n :: !MutatedOnceAt(events, digest, m)
      else exists j | 0 <= j < n :: Mutates(events[j], digest)
    case MutationSubjectMismatch =>
      && ChangesSubject(effects[i])
      && exists m | 0 <= m < n ::
           MutatedOnceAt(events, digest, m) && (events[m].before != request.subject.digest || events[m].after != body.postSubject.value.digest)
    case SumOverflow => !AtMost(TotalUsage(effects, i + 1), Usage(MAX_U64, MAX_U64, MAX_U64, MAX_U64))
    case NonSuccessEffect => receipt.terminalStatus == Completed && body.status != Executed
    case _ => false
  }

  /** What is wrong with a statement that is refused with this error. */
  ghost predicate StatementFault(error: AttestationError, support: ContractSupport, s: Statement) {
    var body, n := s.receipt.body, |s.effects|;
    match error
    case SubjectMismatch => !IsSameThing(s.observed, s.request.subject)
    case InvalidReceipt => !(IsDigest(s.receipt.digest) && s.receipt.digest == support.hashes.receipt(body) && IsLegalTrace(support, s.request, body))
    case InterruptionStatusMismatch => body.terminalStatus != Interrupted && exists j | 0 <= j < |body.events| :: body.events[j].Interruption?
    case StaleCompletion => body.terminalStatus == Completed && s.observed.digest != body.resultingSubject
    case EffectLimit => n > 128
    case MissingEffect => forall digests: seq<string> | IsOrderOfEffects(body.events, digests) :: |digests| != n
    case SubjectOrUsageMismatch =>
      SubjectBefore(s.request, s.effects, n) != body.resultingSubject || !AtMost(TotalUsage(s.effects, n), body.usage)
    case _ =>
      && |Order(body.events)| == n
      && exists i | 0 <= i < n ::
           && (forall h | 0 <= h < i :: RecordIsLegal(support, s.request, body, s.effects, h))
           && EffectFault(error, support, s.request, body, s.effects, i)
  }

  lemma ExecutionRefusesTruly(events: seq<RunEvent>, digest: string, record: EffectRecord)
    requires forall j | 0 <= j < |events| :: events[j].sequence == j + 1
    requires |ExecutionsOf(events, digest)| == 1
    ensures !IsAdmittedBy(DecisionsOf(events, digest), record.request, ExecutionsOf(events, digest)[0].sequence) ==>
              exists x | 0 <= x < |events| :: ExecutedOnceAt(events, digest, x) && !IsAdmittedAt(events, digest, record.request, x)
    ensures !RetainsResult(ExecutionsOf(events, digest)[0], digest, record) ==>
              exists x | 0 <= x < |events| :: ExecutedOnceAt(events, digest, x) && !ExecutionIsOf(events[x], digest, record)
  {
    hide ExecutionsOf, DecisionsOf, IsAdmittedBy, IsAdmittedAt, ExecutedOnceAt, RetainsResult, ExecutionIsOf;
    ExecutionsMean(events, digest);
    var x :| 0 <= x < |events| && ExecutedOnceAt(events, digest, x);
    AdmissionMeans(events, digest, record.request, x);
    RetainsMeans(events, digest, record, x);
  }

  lemma MutationRefusesTruly(events: seq<RunEvent>, digest: string, before: string, after: string)
    requires |MutationsOf(events, digest)| == 1
    ensures var m := MutationsOf(events, digest)[0];
            m.Mutation? && (m.before != before || m.after != after ==>
              exists m | 0 <= m < |events| :: MutatedOnceAt(events, digest, m) && (events[m].before != before || events[m].after != after))
  {
    hide MutationsOf, MutatedOnceAt;
    MutationsMean(events, digest);
    var m :| 0 <= m < |events| && MutatedOnceAt(events, digest, m);
    MutationIsThere(events, digest, m);
  }

  lemma LedgerRefusesTruly(support: ContractSupport, run: AgentRunRequest, receipt: ReceiptBody, effects: seq<EffectRecord>, i: nat)
    requires i < |effects| == |Order(receipt.events)|
    requires forall j | 0 <= j < |receipt.events| :: receipt.events[j].sequence == j + 1
    ensures var checked := CheckLedgerOf(receipt.events, support.hashes.effect(effects[i].request), effects[i], effects[i].request.subject.digest);
            checked.Failure? ==> EffectFault(checked.error, support, run, receipt, effects, i)
  {
    hide ExecutionsOf, MutationsOf, DecisionsOf, IsAdmittedBy, IsAdmittedAt, CitesEvent, ExecutedOnceAt, MutatedOnceAt, RetainsResult, ExecutionIsOf;
    hide Order, SubjectBefore, TotalUsage, EffectIsValid, ResultIsLegal, IsDigest;
    var events, digest, record := receipt.events, support.hashes.effect(effects[i].request), effects[i];
    CitesMeans(events, digest, record.result.body.cited);
    ExecutionsMean(events, digest);
    MutationsMean(events, digest);
    if |ExecutionsOf(events, digest)| == 1 {
      ExecutionRefusesTruly(events, digest, record);
    }
    if |MutationsOf(events, digest)| == 1 && ChangesSubject(record) {
      MutationRefusesTruly(events, digest, record.request.subject.digest, record.result.body.postSubject.value.digest);
    }
  }

  lemma RetainsMeans(events: seq<RunEvent>, digest: string, record: EffectRecord, x: nat)
    requires ExecutedOnceAt(events, digest, x)
    ensures RetainsResult(events[x], digest, record) <==> ExecutionIsOf(events[x], digest, record)
  {
  }

  lemma MutationIsThere(events: seq<RunEvent>, digest: string, m: nat)
    requires MutatedOnceAt(events, digest, m)
    ensures events[m].Mutation?
  {
  }

  lemma EffectRefusesTruly(
    support: ContractSupport, run: AgentRunRequest, receipt: ReceiptBody, effects: seq<EffectRecord>, i: nat, st: EffectState)
    requires i < |effects| == |Order(receipt.events)| && PassDescribes(st, run, effects, i)
    requires forall j | 0 <= j < |receipt.events| :: receipt.events[j].sequence == j + 1
    ensures var checked := CheckEffect(support, run, receipt, Order(receipt.events), i, st, effects[i]);
            checked.Failure? ==> EffectFault(checked.error, support, run, receipt, effects, i)
  {
    hide CheckEffectRequest, CheckResultBody, EffectIsValid, ResultIsLegal, CheckLedgerOf, IsDigest, SubjectBefore, Order;
    hide ExecutedOnceAt, MutatedOnceAt, IsAdmittedAt, ExecutionIsOf;
    var record := effects[i];
    assert ValidateEffectRequest(support, run, record.request).Success? <==> EffectIsValid(support, run, record.request);
    CheckerDecidesResult(support, run, record.request, record.result.body);
    LedgerRefusesTruly(support, run, receipt, effects, i);
    IdsGrow(effects, i);
  }

  lemma {:induction false} PassRefusesTruly(
    support: ContractSupport, run: AgentRunRequest, receipt: ReceiptBody, effects: seq<EffectRecord>, n: nat) returns (i: nat)
    requires n <= |effects| == |Order(receipt.events)|
    requires forall j | 0 <= j < |receipt.events| :: receipt.events[j].sequence == j + 1
    requires CheckEffectsFrom(support, run, receipt, Order(receipt.events), effects[..n]).Failure?
    ensures i < n && (forall h | 0 <= h < i :: RecordIsLegal(support, run, receipt, effects, h))
    ensures EffectFault(CheckEffectsFrom(support, run, receipt, Order(receipt.events), effects[..n]).error, support, run, receipt, effects, i)
  {
    hide CheckEffect, RecordIsLegal, EffectFault, Order, PassDescribes;
    var order := Order(receipt.events);
    assert effects[..n][..n - 1] == effects[..n - 1];
    if CheckEffectsFrom(support, run, receipt, order, effects[..n - 1]).Failure? {
      i := PassRefusesTruly(support, run, receipt, effects, n - 1);
    } else {
      i := n - 1;
      PassIsLegality(support, run, receipt, order, effects, i);
      EffectRefusesTruly(support, run, receipt, effects, i, CheckEffectsFrom(support, run, receipt, order, effects[..i]).value);
    }
  }

  /** Faults of one effect are not faults of the whole statement. */
  lemma EffectFaultIsOfEffect(
    error: AttestationError, support: ContractSupport, run: AgentRunRequest, receipt: ReceiptBody, effects: seq<EffectRecord>, i: nat)
    requires i < |effects| == |Order(receipt.events)| && EffectFault(error, support, run, receipt, effects, i)
    ensures error !in {SubjectMismatch, InvalidReceipt, InterruptionStatusMismatch, StaleCompletion, EffectLimit, MissingEffect, SubjectOrUsageMismatch}
  {
  }

  lemma EffectsRefuseTruly(support: ContractSupport, s: Statement)
    requires IsLegalTrace(support, s.request, s.receipt.body)
    requires CheckEffects(support, s.request, s.receipt.body, s.effects).Some?
    ensures StatementFault(CheckEffects(support, s.request, s.receipt.body, s.effects).value, support, s)
  {
    hide CheckEffectsFrom, IsLegalTrace, Order, EffectFault, RecordIsLegal, SubjectBefore, TotalUsage, IsOrderOfEffects;
    var body, n := s.receipt.body, |s.effects|;
    LegalIsNumbered(support, s.request, body);
    forall digests: seq<string> | IsOrderOfEffects(body.events, digests) ensures digests == Order(body.events) {
      OrderIsOrderOfEffects(body.events, digests);
    }
    if n <= 128 && |Order(body.events)| == n {
      assert s.effects[..n] == s.effects;
      var checked := CheckEffectsFrom(support, s.request, body, Order(body.events), s.effects);
      if checked.Failure? {
        var i := PassRefusesTruly(support, s.request, body, s.effects, n);
        EffectFaultIsOfEffect(checked.error, support, s.request, body, s.effects, i);
      } else {
        PassIsLegality(support, s.request, body, Order(body.events), s.effects, n);
      }
    }
  }

  /** Whatever error the second checker gives, the fault that it names is there, behind effects that are all legal. */
  lemma RefusalIsTrue(support: ContractSupport, s: Statement)
    requires CheckStatement(support, s).Some?
    ensures StatementFault(CheckStatement(support, s).value, support, s)
  {
    hide CheckReceiptBody, CheckEffects, IsLegalTrace, Order, EffectFault, RecordIsLegal, IsDigest, SubjectBefore;
    var body := s.receipt.body;
    CheckerDecidesLegality(support, s.request, body);
    if IsLegalTrace(support, s.request, body) && CheckEffects(support, s.request, body, s.effects).Some? {
      EffectsRefuseTruly(support, s);
    }
    assert (exists e | e in body.events :: e.Interruption?) ==> exists j | 0 <= j < |body.events| :: body.events[j].Interruption?;
  }
}

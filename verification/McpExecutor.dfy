/** The MCP executor port: replay refusal, reconciliation with the host's observation, and error labels. */
module McpExecutor {
  import opened Text
  import opened Contracts
  import opened UsageArithmetic
  import opened ResultChecker
  import opened RunCoordinator
  import opened RuntimeModel
  import opened EffectResults
  import McpWire

  /** What the host observes about the subject and the cost of one call. */
  datatype HostView = HostView(subject: Subject, confirmed: bool, cost: Option<nat>, tokens: Option<nat>)

  predicate UsageIsMeasured(v: HostView) {
    v.cost.Some? && v.cost.value <= MAX_SAFE_INTEGER && v.tokens.Some? && v.tokens.value <= MAX_SAFE_INTEGER
  }

  /** What the session worker reports about one invocation. */
  datatype Invocation = Invocation(status: ExecutionStatus, output: Option<string>, reason: Option<Phrase>, dispatched: bool)

  /** The worker's answer: none at all, a report, or a refusal before the call was handed to the wire. */
  datatype WorkerReply = NoReply | Reported(invocation: Invocation) | RefusedBefore(reason: Phrase, observerFailed: bool)

  /** Everything outside the executor that one call meets, in the order it is met. */
  datatype CallScript = CallScript(
    bindingError: Option<Phrase>,
    refusal: Option<Phrase>,
    preflight: Result<HostView, Phrase>,
    workerIsAlive: bool,
    reply: WorkerReply,
    after: Result<HostView, Phrase>,
    subjectFits: bool,
    cancelledAfter: bool,
    healthAfter: Option<Phrase>,
    elapsed: nat,
    /** The size of the call's record, and of what is left of it without its output. */
    recordBytes: nat,
    bareRecordBytes: nat,
    observedDigest: string,
    recordDigest: string)

  /** A run of the wire that the session, the frame writers and the reader share. */
  datatype WireRun = WireRun(states: seq<McpWire.State>, actions: seq<McpWire.Action>)
  {
    ghost predicate IsRun() {
      McpWire.IsRun(states, actions)
    }

    ghost predicate Extends(earlier: WireRun) {
      earlier.states <= states && earlier.actions <= actions
    }

    function Last(): McpWire.State
      requires states != []
    {
      states[|states| - 1]
    }

    /** The session reported that this call was not dispatched. */
    predicate Undispatched(call: nat)
      requires states != []
    {
      call in Last().reports && !Last().reports[call]
    }
  }

  const QUIET_WIRE := WireRun([McpWire.INITIAL], [])

  /** A call on the wire, and the effect it was begun for. */
  datatype BegunCall = BegunCall(call: nat, effect: EffectRequest)

  predicate NamesDiffer(a: EffectRequest, b: EffectRequest) {
    a.effectId != b.effectId && a.idempotencyKey != b.idempotencyKey
  }

  /** What was reported, and how many calls were begun, survives every extension of the run. */
  lemma ExtensionKeeps(earlier: WireRun, longer: WireRun)
    requires earlier.IsRun() && longer.IsRun() && longer.Extends(earlier)
    ensures earlier.Last().callsBegun <= longer.Last().callsBegun
    ensures forall call | earlier.Undispatched(call) :: longer.Undispatched(call)
  {
    hide McpWire.IsEnabled, McpWire.Next;
    var i, j := |earlier.states| - 1, |longer.states| - 1;
    McpWire.CallsStayBegun(longer.states, longer.actions, i, j);
    forall call | earlier.Undispatched(call) ensures longer.Undispatched(call) {
      McpWire.ReportsStay(longer.states, longer.actions, call, i, j);
    }
  }

  /** A report that nothing was dispatched is true of every moment of every extension of the run: no byte is ever written. */
  lemma UndispatchedNeverWrites(earlier: WireRun, longer: WireRun, call: nat, k: nat)
    requires earlier.IsRun() && longer.IsRun() && longer.Extends(earlier) && earlier.Undispatched(call) && k < |longer.states|
    ensures !McpWire.HasWritten(longer.states[k], call)
  {
    McpWire.NotDispatchedNeverWrites(longer.states, longer.actions, call, |earlier.states| - 1, k);
  }

  datatype CallEvidence = CallEvidence(dispatched: bool, status: ExecutionStatus)

  /** A port error, labelled when nothing was dispatched. */
  datatype McpFailure = McpFailure(reason: Phrase, notDispatched: bool)

  /** The status, reason, subject and costs after the host's observation has been taken into account. */
  datatype Reconciled = Reconciled(status: ExecutionStatus, reason: Option<Phrase>, observed: Option<Subject>, cost: nat, tokens: nat)

  /** A lost reply counts as dispatched; a refusal as denied. */
  function InvocationOf(reply: WorkerReply): Invocation {
    match reply
    case NoReply => Invocation(UnknownOutcome, None, Some(Fixed(EffectOutcomeUnknown)), true)
    case Reported(invocation) => invocation
    case RefusedBefore(reason, _) => Invocation(Denied, None, Some(reason), false)
  }

  /** Later findings override earlier ones, and only a clean observation leaves the worker's status. */
  method Reconcile(effect: EffectRequest, invocation: Invocation, preflight: HostView, script: CallScript) returns (r: Reconciled)
    requires UsageIsMeasured(preflight)
    ensures r == ReconciledFor(effect, invocation, preflight, script)
  {
    var cost, tokens := 0, 0;
    var observed: Option<Subject> := None;
    var status, reason := invocation.status, invocation.reason;
    if invocation.dispatched {
      cost, tokens := preflight.cost.value, preflight.tokens.value;
      match script.after {
        case Success(view) =>
          if !view.confirmed {
            status, reason := UnknownOutcome, Some(Fixed(EffectOutcomeUnknown));
          }
          if effect.effectClass.ObservationEffect? && view.subject.digest != effect.subject.digest {
            status, reason := UnknownOutcome, Some(Fixed(EffectOutcomeUnknown));
          }
          if !script.subjectFits {
            status, reason := UnknownOutcome, Some(Fixed(EffectOutcomeUnknown));
          } else {
            observed := Some(view.subject);
          }
          if UsageIsMeasured(view) {
            cost, tokens := view.cost.value, view.tokens.value;
          } else {
            status, reason := UnknownOutcome, Some(Fixed(EffectOutcomeUnknown));
          }
        case Failure(error) =>
          status, reason := UnknownOutcome, Some(error);
      }
      if status.Executed? && script.cancelledAfter {
        if script.healthAfter.Some? {
          status, reason := UnknownOutcome, script.healthAfter;
        } else {
          status, reason := EffectInterrupted, Some(Fixed(EffectWasInterrupted));
        }
      }
    }
    r := Reconciled(status, reason, observed, cost, tokens);
  }

  /** The host's observation bears the worker's status out. */
  predicate IsBorneOut(effect: EffectRequest, script: CallScript) {
    && script.after.Success? && script.after.value.confirmed && script.subjectFits && UsageIsMeasured(script.after.value)
    && (effect.effectClass.ObservationEffect? ==> script.after.value.subject.digest == effect.subject.digest)
  }

  /** The outcome of reconciliation, by cases instead of by overriding. */
  function ReconciledFor(effect: EffectRequest, invocation: Invocation, preflight: HostView, script: CallScript): Reconciled
    requires UsageIsMeasured(preflight)
  {
    if !invocation.dispatched then Reconciled(invocation.status, invocation.reason, None, 0, 0)
    else if script.after.Failure? then
      Reconciled(UnknownOutcome, Some(script.after.error), None, preflight.cost.value, preflight.tokens.value)
    else
      var view := script.after.value;
      var measured := if UsageIsMeasured(view) then view else preflight;
      var observed := if script.subjectFits then Some(view.subject) else None;
      if !IsBorneOut(effect, script) then
        Reconciled(UnknownOutcome, Some(Fixed(EffectOutcomeUnknown)), observed, measured.cost.value, measured.tokens.value)
      else if invocation.status.Executed? && script.cancelledAfter then
        if script.healthAfter.Some? then Reconciled(UnknownOutcome, script.healthAfter, observed, measured.cost.value, measured.tokens.value)
        else Reconciled(EffectInterrupted, Some(Fixed(EffectWasInterrupted)), observed, measured.cost.value, measured.tokens.value)
      else Reconciled(invocation.status, invocation.reason, observed, measured.cost.value, measured.tokens.value)
  }

  function OutcomeKind(status: ExecutionStatus): Option<EffectEvidenceType> {
    match status
    case UnknownOutcome => Some(UnknownOutcomeEvidence)
    case EffectFailed => Some(FailureEvidence)
    case EffectInterrupted => Some(InterruptedEvidence)
    case _ => None
  }

  const MAX_SUBJECT_BYTES: nat := 8192

  /** What is set aside for a call's record before the call is dispatched. */
  const RECONCILIATION_RESERVE: nat := 2048 + MAX_SUBJECT_BYTES

  class McpExecutor {
    const identity: ExecutorIdentity
    const profile: SandboxProfileIdentity
    const identityDigest: string
    const profileDigest: string

    const maxRetainedBytes: nat

    var attempted: set<string>
    var retainedBytes: nat
    var calls: seq<CallEvidence>
    var cancelled: bool

    /** The wire so far, and the calls this executor had begun on it. */
    ghost var wire: WireRun
    ghost var begun: seq<BegunCall>

    /** The effect is remembered under both its names. */
    ghost predicate Remembers(effect: EffectRequest)
      reads this`attempted
    {
      effect.effectId in attempted && effect.idempotencyKey in attempted
    }

    /** Every call was begun on the wire and is remembered, unless it was reported as not dispatched; a later call has other names than
        every earlier one that was dispatched. */
    ghost predicate Valid()
      reads this`attempted, this`wire, this`begun
    {
      && wire.IsRun()
      && (forall i | 0 <= i < |begun| :: begun[i].call < wire.Last().callsBegun && (Remembers(begun[i].effect) || wire.Undispatched(begun[i].call)))
      && (forall i, j | 0 <= i < j < |begun| :: begun[i].call < begun[j].call)
      && (forall i, j | 0 <= i < j < |begun| :: NamesDiffer(begun[i].effect, begun[j].effect) || wire.Undispatched(begun[i].call))
    }

    constructor (
      identity: ExecutorIdentity, profile: SandboxProfileIdentity, identityDigest: string, profileDigest: string, maxRetainedBytes: nat)
      ensures this.maxRetainedBytes == maxRetainedBytes && retainedBytes == 0
      ensures Valid() && wire == QUIET_WIRE && begun == [] && calls == [] && !cancelled
      ensures this.identity == identity && this.profile == profile
      ensures this.identityDigest == identityDigest && this.profileDigest == profileDigest
    {
      this.identity := identity;
      this.profile := profile;
      this.identityDigest := identityDigest;
      this.profileDigest := profileDigest;
      this.maxRetainedBytes := maxRetainedBytes;
      attempted := {};
      retainedBytes := 0;
      calls := [];
      cancelled := false;
      wire := QUIET_WIRE;
      begun := [];
    }

    /** The tests before the worker is given the call have passed. */
    predicate ReachesWorker(effect: EffectRequest, script: CallScript)
      reads this`attempted, this`retainedBytes
    {
      && script.bindingError.None? && effect.effectId !in attempted && effect.idempotencyKey !in attempted && script.refusal.None?
      && script.preflight.Success? && UsageIsMeasured(script.preflight.value) && script.preflight.value.subject == effect.subject
      && retainedBytes + RECONCILIATION_RESERVE <= maxRetainedBytes && script.workerIsAlive
    }

    /** The worker answers from this extension of the wire: it begins at most one new call, only when it was given one and does not refuse
        it first, and what it reports is what the session reported. */
    ghost predicate AnswersFrom(longer: WireRun, call: Option<nat>, effect: EffectRequest, script: CallScript)
      requires wire.IsRun()
      reads this`attempted, this`wire, this`retainedBytes
    {
      && longer.IsRun() && longer.Extends(wire)
      && (call.Some? ==>
            && ReachesWorker(effect, script) && !script.reply.RefusedBefore?
            && wire.Last().callsBegun <= call.value < longer.Last().callsBegun
            && (script.reply.Reported? ==>
                  call.value in longer.Last().reports && longer.Last().reports[call.value] == script.reply.invocation.dispatched))
    }

    /** At every moment of every extension of the wire, all effects of which a byte is written are remembered and have different names. */
    lemma NoNameIsWrittenTwice(longer: WireRun, k: nat)
      requires Valid() && longer.IsRun() && longer.Extends(wire) && k < |longer.states|
      ensures forall i | 0 <= i < |begun| && McpWire.HasWritten(longer.states[k], begun[i].call) :: Remembers(begun[i].effect)
      ensures forall i, j | 0 <= i < j < |begun| && McpWire.HasWritten(longer.states[k], begun[i].call) ::
                NamesDiffer(begun[i].effect, begun[j].effect)
    {
      hide McpWire.HasWritten;
      forall i | 0 <= i < |begun| && wire.Undispatched(begun[i].call) ensures !McpWire.HasWritten(longer.states[k], begun[i].call) {
        UndispatchedNeverWrites(wire, longer, begun[i].call, k);
      }
    }

    /** What every dispatched call is accompanied by. */
    function CallBasis(effect: EffectRequest, invocation: Invocation, recordDigest: string): seq<EffectEvidence> {
      var schema := WithEvidence([], CapabilitySchema, Some(if effect.toolSchemaDigest.Some? then effect.toolSchemaDigest.value else effect.capability.digest));
      if !invocation.dispatched then schema
      else
        var executor := WithEvidence(schema, ExecutorEvidence, Some(identityDigest));
        var sandbox := WithEvidence(executor, SandboxEvidence, Some(profileDigest));
        var usage := WithEvidence(sandbox, UsageEvidence, Some(recordDigest));
        WithEvidence(usage, OutputEvidence, invocation.output)
    }

    /** What an observed subject adds; `observedDigest` is the digest of the whole observed subject. */
    function WithSubject(
      evidence: seq<EffectEvidence>, effect: EffectRequest, observed: Option<Subject>, observedDigest: string, recordDigest: string): seq<EffectEvidence>
    {
      if observed.None? then evidence
      else
        var subject := WithEvidence(evidence, SubjectObservation, Some(observedDigest));
        if effect.effectClass.ObservationEffect? then subject
        else WithEvidence(WithEvidence(subject, MutationEvidence, Some(recordDigest)), ArtifactChange, Some(observed.value.digest))
    }

    function EvidenceFor(effect: EffectRequest, invocation: Invocation, r: Reconciled, observedDigest: string, recordDigest: string): seq<EffectEvidence> {
      var basis := CallBasis(effect, invocation, recordDigest);
      var called := if invocation.dispatched then WithSubject(basis, effect, r.observed, observedDigest, recordDigest) else basis;
      var outcome := OutcomeKind(r.status);
      if outcome.None? then called else WithEvidence(called, outcome.value, Some(recordDigest))
    }

    /** The observation reported to the engine. */
    function ReportFor(effect: EffectRequest, invocation: Invocation, r: Reconciled, script: CallScript): (report: Observation)
      ensures report.executor.Some? <==> invocation.dispatched
    {
      var post :=
        if r.observed.Some? && effect.effectClass.ObservationEffect? && r.observed.value.digest != effect.subject.digest then None
        else r.observed;
      Observation(
        r.status, post, None,
        Usage(r.cost, if invocation.dispatched then Min(script.elapsed, MAX_SAFE_INTEGER) else 0, r.tokens, if invocation.dispatched then 1 else 0),
        if invocation.dispatched then Some(identity) else None,
        if invocation.dispatched then Some(profile) else None,
        r.reason,
        EvidenceFor(effect, invocation, r, script.observedDigest, script.recordDigest))
    }

    /** Puts the evidence of a call together piece by piece. */
    method CollectEvidence(effect: EffectRequest, invocation: Invocation, r: Reconciled, observedDigest: string, record: string)
      returns (evidence: seq<EffectEvidence>)
      ensures evidence == EvidenceFor(effect, invocation, r, observedDigest, record)
    {
      hide IsKept, Kinds, IsUnique, EffectEvidenceIsValid, IsDigest;
      evidence := [EffectEvidence(CapabilitySchema, if effect.toolSchemaDigest.Some? then effect.toolSchemaDigest.value else effect.capability.digest, None)];
      if invocation.dispatched {
        evidence := evidence + [EffectEvidence(ExecutorEvidence, identityDigest, None)];
        evidence := evidence + [EffectEvidence(SandboxEvidence, profileDigest, None)];
        evidence := evidence + [EffectEvidence(UsageEvidence, record, None)];
        if invocation.output.Some? {
          evidence := evidence + [EffectEvidence(OutputEvidence, invocation.output.value, None)];
        }
        assert evidence == CallBasis(effect, invocation, record);
        if r.observed.Some? {
          evidence := evidence + [EffectEvidence(SubjectObservation, observedDigest, None)];
          if effect.effectClass.MutationEffect? {
            evidence := evidence + [EffectEvidence(MutationEvidence, record, None)];
            evidence := evidence + [EffectEvidence(ArtifactChange, r.observed.value.digest, None)];
          }
        }
        assert evidence == WithSubject(CallBasis(effect, invocation, record), effect, r.observed, observedDigest, record);
      }
      hide CallBasis, WithSubject;
      if r.status.UnknownOutcome? {
        evidence := evidence + [EffectEvidence(UnknownOutcomeEvidence, record, None)];
      } else if r.status.EffectFailed? {
        evidence := evidence + [EffectEvidence(FailureEvidence, record, None)];
      } else if r.status.EffectInterrupted? {
        evidence := evidence + [EffectEvidence(InterruptedEvidence, record, None)];
      }
    }

    /** The report of a call, with its evidence. */
    method Report(effect: EffectRequest, invocation: Invocation, r: Reconciled, script: CallScript) returns (report: Observation)
      ensures report == ReportFor(effect, invocation, r, script)
    {
      hide EvidenceFor;
      var elapsed: nat, toolCalls: nat := 0, 0;
      var executor, sandbox := None, None;
      if invocation.dispatched {
        elapsed, toolCalls := if script.elapsed <= MAX_SAFE_INTEGER then script.elapsed else MAX_SAFE_INTEGER, 1;
        executor, sandbox := Some(identity), Some(profile);
      }
      var post := r.observed;
      if post.Some? && effect.effectClass.ObservationEffect? && post.value.digest != effect.subject.digest {
        post := None;
      }
      var evidence := CollectEvidence(effect, invocation, r, script.observedDigest, script.recordDigest);
      report := Observation(r.status, post, None, Usage(r.cost, elapsed, r.tokens, toolCalls), executor, sandbox, r.reason, evidence);
    }

    lemma CallsAreEarlier()
      requires Valid()
      ensures wire.IsRun() && forall i | 0 <= i < |begun| :: begun[i].call < wire.Last().callsBegun
    {
    }

    /** The wire goes on. */
    ghost method Advance(longer: WireRun)
      requires Valid() && longer.IsRun() && longer.Extends(wire)
      modifies this`wire
      ensures Valid() && wire == longer
    {
      hide McpWire.IsRun;
      ExtensionKeeps(wire, longer);
      wire := longer;
    }

    /** Remembers an effect that was dispatched, and the call that was begun for it. */
    method Remember(effect: EffectRequest, dispatched: bool, ghost call: Option<nat>)
      requires Valid() && effect.effectId !in attempted && effect.idempotencyKey !in attempted
      requires call.Some? ==>
                 && call.value < wire.Last().callsBegun && (forall i | 0 <= i < |begun| :: begun[i].call < call.value)
                 && (dispatched || wire.Undispatched(call.value))
      modifies this`attempted, this`begun
      ensures Valid() && attempted == old(attempted) + if dispatched then {effect.effectId, effect.idempotencyKey} else {}
      ensures begun == old(begun) + if call.Some? then [BegunCall(call.value, effect)] else []
    {
      if dispatched {
        attempted := attempted + {effect.effectId, effect.idempotencyKey};
      }
      if call.Some? {
        begun := begun + [BegunCall(call.value, effect)];
      }
    }

    /** Executes one effect; meanwhile the wire goes on to `longer`, where the worker has begun `call` for it, if any. */
    method ExecuteEffect(effect: EffectRequest, script: CallScript, ghost longer: WireRun, ghost call: Option<nat>)
      returns (result: Result<Observation, Phrase>)
      requires Valid() && AnswersFrom(longer, call, effect, script)
      modifies this
      ensures Valid() && wire == longer
      ensures begun == old(begun) + if call.Some? then [BegunCall(call.value, effect)] else []
      ensures effect.effectId in old(attempted) || effect.idempotencyKey in old(attempted) ==> call.None? && result.Failure?
      ensures old(retainedBytes) <= maxRetainedBytes && script.bareRecordBytes <= RECONCILIATION_RESERVE ==> retainedBytes <= maxRetainedBytes
      ensures result.Failure? ==> call.None? && (|calls| == |old(calls)| || (calls != [] && !calls[|calls| - 1].dispatched))
      ensures result.Success? && result.value.executor.None? && call.Some? ==> longer.Undispatched(call.value)
      ensures attempted == old(attempted) + if result.Success? && result.value.executor.Some? then {effect.effectId, effect.idempotencyKey} else {}
      ensures result.Success? && result.value.executor.Some? ==>
                script.preflight.Success? && UsageIsMeasured(script.preflight.value) &&
                result.value == ReportFor(effect, InvocationOf(script.reply),
                                          ReconciledFor(effect, InvocationOf(script.reply), script.preflight.value, script), script)
    {
      hide EvidenceFor, ReconciledFor, UsageIsMeasured, McpWire.IsRun, Valid, ReportFor;
      CallsAreEarlier();
      Advance(longer);
      if script.bindingError.Some? {
        return Failure(script.bindingError.value);
      }
      if effect.effectId in attempted || effect.idempotencyKey in attempted {
        return Failure(Fixed(DuplicateEffect));
      }
      if script.refusal.Some? {
        return Success(Observation(Denied, None, None, ZERO_USAGE, None, None, script.refusal, []));
      }
      if script.preflight.Failure? {
        return Failure(script.preflight.error);
      }
      var preflight := script.preflight.value;
      if !UsageIsMeasured(preflight) || preflight.subject != effect.subject || retainedBytes + RECONCILIATION_RESERVE > maxRetainedBytes {
        return Failure(Fixed(InvalidEffectRequest));
      }
      var retainedBefore := retainedBytes;
      retainedBytes := retainedBytes + RECONCILIATION_RESERVE;
      var index := |calls|;
      calls := calls + [CallEvidence(false, UnknownOutcome)];
      if !script.workerIsAlive {
        return Failure(Fixed(InvalidEffectRequest));
      }
      calls := calls[index := CallEvidence(true, UnknownOutcome)];
      if script.reply.RefusedBefore? && script.reply.observerFailed {
        calls := calls[index := CallEvidence(false, UnknownOutcome)];
        cancelled := true;
        return Failure(script.reply.reason);
      }
      var invocation := InvocationOf(script.reply);
      Remember(effect, invocation.dispatched, call);
      var r := Reconcile(effect, invocation, preflight, script);
      retainedBytes := retainedBefore + if retainedBefore + script.recordBytes > maxRetainedBytes then script.bareRecordBytes else script.recordBytes;
      calls := calls[index := CallEvidence(invocation.dispatched, r.status)];
      if r.status.UnknownOutcome? {
        cancelled := true;
      }
      var report := Report(effect, invocation, r, script);
      result := Success(report);
    }

    /** The executor port: an error is labelled as before dispatch when the call left no dispatched record. */
    method Execute(effect: EffectRequest, script: CallScript, ghost longer: WireRun, ghost call: Option<nat>)
      returns (result: Result<Observation, McpFailure>)
      requires Valid() && AnswersFrom(longer, call, effect, script)
      modifies this
      ensures Valid() && wire == longer
      ensures begun == old(begun) + if call.Some? then [BegunCall(call.value, effect)] else []
      ensures effect.effectId in old(attempted) || effect.idempotencyKey in old(attempted) ==> call.None?
      ensures result.Failure? ==> result.error.notDispatched && call.None?
    {
      var recordsBefore := |calls|;
      var executed := ExecuteEffect(effect, script, longer, call);
      result :=
        match executed
        case Success(observation) => Success(observation)
        case Failure(reason) =>
          Failure(McpFailure(reason, |calls| == recordsBefore || (calls != [] && !calls[|calls| - 1].dispatched)));
    }

    // ---- The report always seals ----

    /** What the composition provides: well-formed digests and error texts, and the identity and profile that the engine expects. What the
        host observes after the call may be no subject at all. */
    predicate IsComposed(config: RuntimeConfig, effect: EffectRequest, invocation: Invocation, script: CallScript) {
      && config.executor == identity && effect.sandboxProfile == profile && effect.family.ExternalService?
      && IdentityIsValid(identity) && IsDigest(identityDigest) && IsDigest(profileDigest) && IsDigest(script.recordDigest)
      && IsDigest(script.observedDigest)
      && (invocation.output.Some? ==> IsDigest(invocation.output.value))
      && (script.after.Failure? ==> IsErrorText(script.after.error))
      && (script.healthAfter.Some? ==> IsErrorText(script.healthAfter.value))
    }

    lemma BasisIsKept(effect: EffectRequest, invocation: Invocation, recordDigest: string)
      requires invocation.dispatched && IsDigest(identityDigest) && IsDigest(profileDigest) && IsDigest(recordDigest)
      requires invocation.output.Some? ==> IsDigest(invocation.output.value)
      requires IsDigest(effect.capability.digest) && (effect.toolSchemaDigest.Some? ==> IsDigest(effect.toolSchemaDigest.value))
      ensures IsKept(CallBasis(effect, invocation, recordDigest))
      ensures Kinds(CallBasis(effect, invocation, recordDigest)) ==
              {CapabilitySchema, ExecutorEvidence, SandboxEvidence, UsageEvidence} + if invocation.output.Some? then {OutputEvidence} else {}
    {
      hide WithEvidence, IsKept, Kinds, IsDigest;
      NothingIsKept();
    }

    lemma SubjectIsKept(
      evidence: seq<EffectEvidence>, effect: EffectRequest, observed: Option<Subject>, observedDigest: string, recordDigest: string)
      requires IsKept(evidence) && Kinds(evidence) !! {SubjectObservation, MutationEvidence, ArtifactChange}
      requires IsDigest(recordDigest) && IsDigest(observedDigest)
      requires observed.Some? && effect.effectClass.MutationEffect? ==> IsDigest(observed.value.digest)
      ensures IsKept(WithSubject(evidence, effect, observed, observedDigest, recordDigest))
      ensures Kinds(WithSubject(evidence, effect, observed, observedDigest, recordDigest)) ==
              Kinds(evidence)
              + if observed.None? then {}
                else if effect.effectClass.ObservationEffect? then {SubjectObservation}
                else {SubjectObservation, MutationEvidence, ArtifactChange}
    {
      hide WithEvidence, IsKept, Kinds, IsDigest;
    }

    /** The artifact that a mutation's report names has a well-formed digest. */
    predicate ObservedIsNamed(effect: EffectRequest, invocation: Invocation, preflight: HostView, script: CallScript)
      requires UsageIsMeasured(preflight)
    {
      var r := ReconciledFor(effect, invocation, preflight, script);
      r.observed.Some? && effect.effectClass.MutationEffect? ==> IsDigest(r.observed.value.digest)
    }

    lemma EvidenceIsKept(config: RuntimeConfig, effect: EffectRequest, invocation: Invocation, preflight: HostView, script: CallScript)
      requires IsComposed(config, effect, invocation, script) && IsDispatchReport(invocation) && UsageIsMeasured(preflight)
      requires IsDigest(effect.capability.digest) && (effect.toolSchemaDigest.Some? ==> IsDigest(effect.toolSchemaDigest.value))
      requires ObservedIsNamed(effect, invocation, preflight, script)
      ensures var r := ReconciledFor(effect, invocation, preflight, script);
              var evidence := EvidenceFor(effect, invocation, r, script.observedDigest, script.recordDigest);
              && IsKept(evidence)
              && Kinds(evidence) ==
                 {CapabilitySchema, ExecutorEvidence, SandboxEvidence, UsageEvidence}
                 + (if invocation.output.Some? then {OutputEvidence} else {})
                 + (if r.observed.None? then {}
                    else if effect.effectClass.ObservationEffect? then {SubjectObservation}
                    else {SubjectObservation, MutationEvidence, ArtifactChange})
                 + (if OutcomeKind(r.status).Some? then {OutcomeKind(r.status).value} else {})
    {
      hide WithEvidence, IsKept, Kinds, IsDigest, IdentityIsValid, IsErrorText, CallBasis, WithSubject, ReconciledFor;
      var r := ReconciledFor(effect, invocation, preflight, script);
      BasisIsKept(effect, invocation, script.recordDigest);
      SubjectIsKept(CallBasis(effect, invocation, script.recordDigest), effect, r.observed, script.observedDigest, script.recordDigest);
    }

    /** The subject that a dispatched call's report carries: what the host observed, if it is not too large and does not show that an
        observation changed something. */
    predicate ReportsSubject(effect: EffectRequest, script: CallScript) {
      && script.after.Success? && script.subjectFits
      && (effect.effectClass.ObservationEffect? ==> script.after.value.subject.digest == effect.subject.digest)
    }

    /** Exactly which dispatched calls have a report that can be retained: those whose reported subject, if any, is valid. The report is
        trusted in any case. */
    lemma DispatchedReportSeals(
      support: ContractSupport, config: RuntimeConfig, run: AgentRunRequest, effect: EffectRequest, cited: CitedDecision,
      invocation: Invocation, preflight: HostView, script: CallScript)
      requires support.hashes.WellFormed() && CheckEffectRequest(support, run, effect).None? && CitesPermission(support, effect, cited)
      requires IsComposed(config, effect, invocation, script) && IsDispatchReport(invocation) && UsageIsMeasured(preflight)
      ensures var report := ReportFor(effect, invocation, ReconciledFor(effect, invocation, preflight, script), script);
              var fits := ReportsSubject(effect, script) ==> SubjectIsValid(script.after.value.subject);
              && DistrustReason(config, effect, report).None? && report.usage.toolCalls == 1
              && (CheckResultBody(support, run, effect, AttemptBody(config, effect, effect.subject, cited, report)).None? <==> fits)
              && (ReplyFits(config, support.hashes, effect, Success(report)) <==> fits)
    {
      hide CheckEffectRequest, CheckResultBody, EvidenceFor, IdentityIsValid, CitesPermission, ObservationFits, ReconciledFor, AttemptBody, SubjectIsValid;
      hide CountAttempt, ReportsSubject;
      var report := ReportFor(effect, invocation, ReconciledFor(effect, invocation, preflight, script), script);
      ReportIsCoherent(config, effect, invocation, preflight, script);
      ReportedSubject(effect, invocation, preflight, script);
      if report.postSubject.Some? ==> SubjectIsValid(report.postSubject.value) {
        ReportFits(config, effect, invocation, preflight, script);
      } else {
        InvalidSubjectNeverFits(effect, report);
      }
      DispatchReported(invocation);
      AttemptSealsExactly(support, config, run, effect, cited, report);
    }

    lemma ReportedSubject(effect: EffectRequest, invocation: Invocation, preflight: HostView, script: CallScript)
      requires invocation.dispatched && UsageIsMeasured(preflight)
      ensures ReportFor(effect, invocation, ReconciledFor(effect, invocation, preflight, script), script).postSubject ==
              if ReportsSubject(effect, script) then Some(script.after.value.subject) else None
    {
      hide EvidenceFor;
    }

    lemma InvalidSubjectNeverFits(effect: EffectRequest, report: Observation)
      requires report.postSubject.Some? && !SubjectIsValid(report.postSubject.value)
      ensures !ObservationFits(effect, report)
    {
      hide Kinds, IsKept, UsageIsSafe;
    }

    /** The failing input: a dispatched mutation after which the host observes a subject without a locator. */
    lemma BlankLocatorIsRefused(
      support: ContractSupport, config: RuntimeConfig, run: AgentRunRequest, effect: EffectRequest, cited: CitedDecision,
      invocation: Invocation, preflight: HostView, script: CallScript)
      requires support.hashes.WellFormed() && CheckEffectRequest(support, run, effect).None? && CitesPermission(support, effect, cited)
      requires IsComposed(config, effect, invocation, script) && IsDispatchReport(invocation) && UsageIsMeasured(preflight)
      requires effect.effectClass.MutationEffect? && script.after.Success? && script.subjectFits && script.after.value.subject.locator == ""
      ensures var report := ReportFor(effect, invocation, ReconciledFor(effect, invocation, preflight, script), script);
              !ReplyFits(config, support.hashes, effect, Success(report))
    {
      hide CheckEffectRequest, CheckResultBody, CitesPermission, IsComposed, IsDispatchReport, ReportFor, ReplyFits;
      DispatchedReportSeals(support, config, run, effect, cited, invocation, preflight, script);
    }

    /** The report of a dispatched call shows all that a trusted report must. */
    lemma ReportFits(config: RuntimeConfig, effect: EffectRequest, invocation: Invocation, preflight: HostView, script: CallScript)
      requires IsComposed(config, effect, invocation, script) && IsDispatchReport(invocation) && UsageIsMeasured(preflight)
      requires IsDigest(effect.capability.digest) && (effect.toolSchemaDigest.Some? ==> IsDigest(effect.toolSchemaDigest.value))
      requires var report := ReportFor(effect, invocation, ReconciledFor(effect, invocation, preflight, script), script);
               report.postSubject.Some? ==> SubjectIsValid(report.postSubject.value)
      ensures ObservationFits(effect, ReportFor(effect, invocation, ReconciledFor(effect, invocation, preflight, script), script))
    {
      hide EvidenceFor, IsKept, Kinds, IdentityIsValid, IsDigest, ReconciledFor, PhraseIsNonBlank, IsDispatchReport, UsageIsSafe;
      EvidenceIsKept(config, effect, invocation, preflight, script);
      EvidenceStatesEnding(config, effect, invocation, preflight, script);
      ReportIsCoherent(config, effect, invocation, preflight, script);
    }

    lemma ReportIsCoherent(config: RuntimeConfig, effect: EffectRequest, invocation: Invocation, preflight: HostView, script: CallScript)
      requires IsComposed(config, effect, invocation, script) && IsDispatchReport(invocation) && UsageIsMeasured(preflight)
      ensures var report := ReportFor(effect, invocation, ReconciledFor(effect, invocation, preflight, script), script);
              && report.status.IsAttempt() && report.exit.None? && UsageIsSafe(report.usage)
              && (report.status.Executed? <==> report.reason.None?)
              && (report.reason.Some? ==> IsErrorText(report.reason.value))
              && (report.postSubject.None? ==> report.status.UnknownOutcome?)
              && (report.postSubject.Some? && effect.effectClass.ObservationEffect? ==> report.postSubject.value.digest == effect.subject.digest)
    {
      hide EvidenceFor, IdentityIsValid, SubjectIsValid, IsDigest;
    }

    lemma EvidenceStatesEnding(config: RuntimeConfig, effect: EffectRequest, invocation: Invocation, preflight: HostView, script: CallScript)
      requires IsComposed(config, effect, invocation, script) && IsDispatchReport(invocation) && UsageIsMeasured(preflight)
      requires IsDigest(effect.capability.digest) && (effect.toolSchemaDigest.Some? ==> IsDigest(effect.toolSchemaDigest.value))
      requires ObservedIsNamed(effect, invocation, preflight, script)
      ensures var r := ReconciledFor(effect, invocation, preflight, script);
              var evidence := EvidenceFor(effect, invocation, r, script.observedDigest, script.recordDigest);
              && {ExecutorEvidence, SandboxEvidence, UsageEvidence} <= Kinds(evidence) && ExitEvidence !in Kinds(evidence)
              && Endings(evidence) == (if OutcomeKind(r.status).Some? then {OutcomeKind(r.status).value} else {})
              && (r.observed.Some? ==> SubjectObservation in Kinds(evidence))
              && (r.observed.Some? && effect.effectClass.MutationEffect? ==> {MutationEvidence, ArtifactChange} <= Kinds(evidence))
    {
      hide EvidenceFor, IsKept, Kinds, ReconciledFor, IsDigest, IsErrorText, IdentityIsValid, IsDispatchReport;
      EvidenceIsKept(config, effect, invocation, preflight, script);
    }

    lemma DispatchReported(invocation: Invocation)
      requires IsDispatchReport(invocation)
      ensures invocation.dispatched
    {
    }
  }

  /** The kinds of evidence that state an ending, as far as they appear. */
  function Endings(evidence: seq<EffectEvidence>): set<EffectEvidenceType> {
    Kinds(evidence) * {FailureEvidence, InterruptedEvidence, UnknownOutcomeEvidence}
  }

  /** Text that is not blank and not one of the reasons reserved for drift. */
  predicate IsErrorText(p: Phrase) {
    PhraseIsNonBlank(p) && p !in DRIFT_REASONS
  }

  /** A dispatched call was executed, or it failed or has an unknown outcome for a stated reason. */
  predicate IsDispatchReport(invocation: Invocation) {
    && invocation.dispatched
    && (invocation.status.Executed? || invocation.status.EffectFailed? || invocation.status.UnknownOutcome?)
    && (invocation.status.Executed? <==> invocation.reason.None?)
    && (invocation.reason.Some? ==> IsErrorText(invocation.reason.value))
  }

}

/** The ACP wire protocol: one state checked against every frame in both directions. */
module AcpWire {
  import opened Text

  const MAX_USIZE: nat := 0xFFFF_FFFF_FFFF_FFFF

  datatype Phase = New | Initialized | Ready | Prompting | Terminal

  datatype HostMethod = Initialize | NewSession | Prompt | Inventory | OtherRequest

  datatype AgentMethod = ReadFile | WriteFile | AskPermission | SessionUpdate | OtherCall

  datatype ToolStatus = Pending | InProgress | ToolCompleted | ToolFailed
  {
    predicate IsFinal() {
      ToolCompleted? || ToolFailed?
    }

    /** How far a tool call has come. */
    function Rank(): nat {
      if Pending? then 0 else if InProgress? then 1 else 2
    }
  }

  datatype FrameId = FrameId(text: string, isValid: bool)

  /** A tool status as it stands in an update. */
  datatype StatusField = NoStatus | NotText | OtherText | Known(status: ToolStatus)

  /** A session update; a missing or ill-typed field is `None`. */
  datatype Update =
    | Chunk(isText: bool)
    | ToolCall(tool: Option<string>, status: StatusField)
    | ToolUpdate(tool: Option<string>, status: StatusField)
    | Plan
    | UsageUpdate
    | PassiveUpdate
    | UnknownUpdate
    | NoUpdate
  {
    /** The kinds that inventory mode lets through before the prompt, and never looks at. */
    predicate IsPassive() {
      UsageUpdate? || PassiveUpdate?
    }
  }

  datatype AgentReply =
    | ErrorReply(needsAuthentication: bool)
    | ResultReply(isValid: bool, versionIsOne: bool, hasIdentity: bool, session: Option<string>, hasStopReason: bool)

  /** What a file call's parameters lack. */
  datatype InputFault = NoFault | IsIncomplete | HasBadRange

  /** Why something with a method is no call: it also answers, the method is no text, or the parameters are no object. */
  datatype CallDefect = AlsoAnswers | MethodIsNoText | ParamsAreNoObject

  /** A frame's content, once it is one JSON object of the protocol's schema. A response that has both or neither of result and
      error is not exclusive. */
  datatype Content =
    | AgentCall(callId: Option<FrameId>, session: Option<string>, call: AgentMethod, fault: InputFault, update: Update)
    | AgentResponse(responseId: Option<FrameId>, isExclusive: bool, reply: AgentReply)
    | HostRequest(requestId: Option<FrameId>, requested: HostMethod, requestSession: Option<string>)
    | HostNotice(noticeId: Option<FrameId>, isCancel: bool)
    | HostResponse(answerId: Option<FrameId>, answerIsExclusive: bool)
    | MalformedCall(malformedId: Option<FrameId>, defect: CallDefect)
  {
    function Id(): Option<FrameId> {
      match this
      case AgentCall(id, _, _, _, _) => id
      case AgentResponse(id, _, _) => id
      case HostRequest(id, _, _) => id
      case HostNotice(id, _) => id
      case HostResponse(id, _) => id
      case MalformedCall(id, _) => id
    }
  }

  /** What keeps a line from being an object of the protocol. */
  datatype LineFault = IsNoJson | BreaksSchema | IsNoEnvelope

  datatype Frame = Frame(bytes: nat, fault: Option<LineFault>, content: Content)

  datatype WireError =
    | FrameLimit | InvalidJson | MalformedParams | InvalidEnvelope | TotalBytesLimit | MessageLimit | InvalidId
    | InvalidMethod | InvalidParams | SessionOrder | DuplicateRequest | UnsupportedEffect | IncompleteInput | InvalidFileRange
    | UnsupportedNotification | InvalidUpdate | UnsupportedUpdate | InvalidContent | InvalidToolId | InvalidToolStatus | ToolOrder
    | UnsupportedRequest | RequestOrder | InventoryRequired
    | MissingId | UnexpectedResponse | AuthenticationRequired | AgentError | InvalidResponse | MalformedInventory | MalformedResult
    | VersionMismatch | MissingIdentity | InvalidSession | MissingStopReason | IncompleteOperations

  datatype Limits = Limits(maxFrame: nat, maxTotal: nat, maxMessages: nat)

  datatype WireState = WireState(
    phase: Phase,
    session: Option<string>,
    outgoing: map<string, HostMethod>,
    incoming: set<string>,
    answered: set<string>,
    tools: map<string, ToolStatus>,
    messages: nat,
    totalBytes: nat,
    outputSeen: bool,
    gooseInventory: bool,
    inventorySeen: bool)

  function InitialState(gooseInventory: bool): WireState {
    WireState(New, None, map[], {}, {}, map[], 0, 0, false, gooseInventory, false)
  }

  /** The state after a frame, and why the frame was rejected; a rejected frame may have changed the state. */
  datatype Checked = Checked(state: WireState, problem: Option<WireError>)

  function Accept(s: WireState): Checked {
    Checked(s, None)
  }

  function Reject(s: WireState, problem: WireError): Checked {
    Checked(s, Some(problem))
  }

  function ApplyUpdate(s: WireState, update: Update): Checked {
    match update
    case Chunk(isText) => if isText then Accept(s.(outputSeen := true)) else Reject(s.(outputSeen := true), InvalidContent)
    case ToolCall(tool, status) =>
      var start := if status.Known? then status.status else Pending;
      if tool.None? then Reject(s, InvalidToolId)
      else if status.OtherText? || start.IsFinal() then Reject(s, ToolOrder)
      else if tool.value in s.tools then Reject(s.(tools := s.tools[tool.value := start]), ToolOrder)
      else Accept(s.(tools := s.tools[tool.value := start]))
    case ToolUpdate(tool, status) =>
      if tool.None? then Reject(s, InvalidToolId)
      else if tool.value !in s.tools || s.tools[tool.value].IsFinal() then Reject(s, ToolOrder)
      else
        (match status
         case NoStatus => Accept(s)
         case NotText => Reject(s, InvalidToolStatus)
         case OtherText => Reject(s, ToolOrder)
         case Known(next) =>
           if s.tools[tool.value].InProgress? && next.Pending? then Reject(s, ToolOrder)
           else Accept(s.(tools := s.tools[tool.value := next])))
    case Plan => Accept(s)
    case UsageUpdate => Accept(s)
    case PassiveUpdate => Reject(s, UnsupportedUpdate)
    case UnknownUpdate => Reject(s, UnsupportedUpdate)
    case NoUpdate => Reject(s, InvalidUpdate)
  }

  function CheckAgentCall(s: WireState, c: Content): Checked
    requires c.AgentCall?
  {
    var passive := s.gooseInventory && c.call.SessionUpdate? && c.update.IsPassive();
    if (s.phase != Prompting && !(passive && s.phase == Ready)) || c.session != s.session then Reject(s, SessionOrder)
    else if c.callId.None? then
      if !c.call.SessionUpdate? then Reject(s, UnsupportedNotification)
      else if passive then Accept(s)
      else ApplyUpdate(s, c.update)
    else
      var id := c.callId.value.text;
      if s.incoming != {} then Reject(s, DuplicateRequest)
      else
        var answered := s.(answered := s.answered + {id});
        if id in s.answered then Reject(answered, DuplicateRequest)
        else if !(c.call.ReadFile? || c.call.WriteFile? || c.call.AskPermission?) then Reject(answered, UnsupportedEffect)
        else if !c.call.AskPermission? && c.fault.IsIncomplete? then Reject(answered, IncompleteInput)
        else if !c.call.AskPermission? && c.fault.HasBadRange? then Reject(answered, InvalidFileRange)
        else Accept(answered.(incoming := s.incoming + {id}))
  }

  function ExpectedPhase(s: WireState, m: HostMethod): Option<Phase> {
    match m
    case Initialize => Some(New)
    case NewSession => Some(Initialized)
    case Prompt => Some(Ready)
    case Inventory => if s.gooseInventory && !s.inventorySeen then Some(Ready) else None
    case OtherRequest => None
  }

  function CheckHostRequest(s: WireState, c: Content): Checked
    requires c.HostRequest? && c.requestId.Some?
  {
    var expected := ExpectedPhase(s, c.requested);
    if expected.None? then Reject(s, UnsupportedRequest)
    else if s.phase != expected.value || s.outgoing != map[] then Reject(s, RequestOrder)
    else if c.requested.Inventory? && c.requestSession != s.session then Reject(s, SessionOrder)
    else if c.requested.Prompt? && s.gooseInventory && !s.inventorySeen then Reject(s, InventoryRequired)
    else
      Accept(s.(
        inventorySeen := s.inventorySeen || c.requested.Inventory?,
        phase := if c.requested.Prompt? then Prompting else s.phase,
        outgoing := s.outgoing[c.requestId.value.text := c.requested]))
  }

  /** The request a response answers is forgotten even when the response is then rejected. */
  function CheckAgentResponse(s: WireState, c: Content): Checked
    requires c.AgentResponse? && c.responseId.Some?
  {
    var id := c.responseId.value.text;
    if id !in s.outgoing then Reject(s, UnexpectedResponse)
    else
      var requested := s.outgoing[id];
      var t := s.(outgoing := s.outgoing - {id});
      if c.reply.ErrorReply? then Reject(t, if c.reply.needsAuthentication then AuthenticationRequired else AgentError)
      else if requested.OtherRequest? then Reject(t, UnexpectedResponse)
      else if !c.reply.isValid then Reject(t, if requested.Inventory? then MalformedInventory else MalformedResult)
      else
        match requested
        case Initialize =>
          if !c.reply.versionIsOne then Reject(t, VersionMismatch)
          else if !c.reply.hasIdentity then Reject(t, MissingIdentity)
          else Accept(t.(phase := Initialized))
        case NewSession =>
          if c.reply.session.None? then Reject(t, InvalidSession) else Accept(t.(phase := Ready, session := c.reply.session))
        case Inventory => Accept(t)
        case Prompt =>
          if s.incoming != {} || exists tool | tool in s.tools :: !s.tools[tool].IsFinal() then Reject(t, IncompleteOperations)
          else if !c.reply.hasStopReason then Reject(t, MissingStopReason)
          else Accept(t.(phase := Terminal))
  }

  function DefectError(defect: CallDefect): WireError {
    match defect
    case AlsoAnswers => InvalidEnvelope
    case MethodIsNoText => InvalidMethod
    case ParamsAreNoObject => InvalidParams
  }

  function FaultError(fault: LineFault): WireError {
    match fault
    case IsNoJson => InvalidJson
    case BreaksSchema => MalformedParams
    case IsNoEnvelope => InvalidEnvelope
  }

  function CheckContent(s: WireState, c: Content): Checked {
    match c
    case AgentCall(_, _, _, _, _) => CheckAgentCall(s, c)
    case HostRequest(id, _, _) => if id.None? then Reject(s, UnsupportedNotification) else CheckHostRequest(s, c)
    case HostNotice(id, isCancel) =>
      if id.Some? then Reject(s, UnsupportedRequest) else if isCancel then Accept(s) else Reject(s, UnsupportedNotification)
    case MalformedCall(_, defect) => Reject(s, DefectError(defect))
    case AgentResponse(id, isExclusive, _) =>
      if id.None? then Reject(s, MissingId)
      else if !isExclusive then Reject(s, InvalidResponse)
      else CheckAgentResponse(s, c)
    case HostResponse(id, isExclusive) =>
      if id.None? then Reject(s, MissingId)
      else if !isExclusive then Reject(s, InvalidResponse)
      else if id.value.text !in s.incoming then Reject(s, UnexpectedResponse)
      else Accept(s.(incoming := s.incoming - {id.value.text}))
  }

  function Min(a: nat, b: nat): nat {
    if a <= b then a else b
  }

  function CheckFrame(limits: Limits, s: WireState, f: Frame): Checked {
    if f.bytes > limits.maxFrame then Reject(s, FrameLimit)
    else if f.fault.Some? then Reject(s, FaultError(f.fault.value))
    else
      var t := s.(messages := s.messages + 1, totalBytes := Min(s.totalBytes + f.bytes, MAX_USIZE));
      if t.totalBytes > limits.maxTotal then Reject(t, TotalBytesLimit)
      else if t.messages > limits.maxMessages then Reject(t, MessageLimit)
      else if f.content.Id().Some? && !f.content.Id().value.isValid then Reject(t, InvalidId)
      else CheckContent(t, f.content)
  }

  /** The state after a sequence of frames that were all accepted. */
  function AcceptAll(limits: Limits, gooseInventory: bool, frames: seq<Frame>): Option<WireState> {
    if frames == [] then Some(InitialState(gooseInventory))
    else
      var last := |frames| - 1;
      match AcceptAll(limits, gooseInventory, frames[..last])
      case None => None
      case Some(s) =>
        var checked := CheckFrame(limits, s, frames[last]);
        if checked.problem.Some? then None else Some(checked.state)
  }

  // ---- What accepted sequences keep ----

  predicate IsPending(s: WireState, m: HostMethod) {
    exists id | id in s.outgoing :: s.outgoing[id] == m
  }

  /** Each phase allows one kind of outstanding request; inventory may be outstanding before the prompt only. */
  predicate PendingFitsPhase(s: WireState) {
    && (IsPending(s, Initialize) ==> s.phase.New?)
    && (IsPending(s, NewSession) ==> s.phase.Initialized?)
    && (IsPending(s, Inventory) ==> s.phase.Ready? && s.inventorySeen)
    && (s.phase.Prompting? <==> IsPending(s, Prompt))
    && !IsPending(s, OtherRequest)
  }

  /** At most one request is outstanding in each direction, and a finished session has nothing left. */
  predicate AtMostOnePending(s: WireState) {
    && (forall a, b | a in s.outgoing && b in s.outgoing :: a == b)
    && (forall a, b | a in s.incoming && b in s.incoming :: a == b)
    && s.incoming <= s.answered
    && (s.incoming != {} ==> s.phase.Prompting?)
    && (s.phase.Terminal? ==> s.outgoing == map[] && s.incoming == {} && forall tool | tool in s.tools :: s.tools[tool].IsFinal())
  }

  predicate StateIsSound(s: WireState) {
    PendingFitsPhase(s) && AtMostOnePending(s)
  }

  lemma ContentKeepsSoundness(s: WireState, c: Content)
    requires StateIsSound(s) && CheckContent(s, c).problem.None?
    ensures StateIsSound(CheckContent(s, c).state)
  {
    match c
    case AgentCall(_, _, _, _, _) => AgentCallKeepsSoundness(s, c);
    case HostRequest(_, _, _) => HostRequestKeepsSoundness(s, c);
    case AgentResponse(_, _, _) => AgentResponseKeepsSoundness(s, c);
    case HostNotice(_, _) =>
    case HostResponse(_, _) => PendingIsSame(s, CheckContent(s, c).state);
    case MalformedCall(_, _) =>
  }

  lemma PendingIsSame(s: WireState, t: WireState)
    requires s.outgoing == t.outgoing
    ensures forall m :: IsPending(s, m) <==> IsPending(t, m)
  {
  }

  lemma AgentCallKeepsSoundness(s: WireState, c: Content)
    requires StateIsSound(s) && c.AgentCall? && CheckAgentCall(s, c).problem.None?
    ensures StateIsSound(CheckAgentCall(s, c).state)
  {
    var t := CheckAgentCall(s, c).state;
    assert t.outgoing == s.outgoing && t.phase == s.phase && t.inventorySeen == s.inventorySeen;
    PendingIsSame(s, t);
  }

  lemma HostRequestKeepsSoundness(s: WireState, c: Content)
    requires StateIsSound(s) && c.HostRequest? && c.requestId.Some? && CheckHostRequest(s, c).problem.None?
    ensures StateIsSound(CheckHostRequest(s, c).state)
  {
    var t := CheckHostRequest(s, c).state;
    var id := c.requestId.value.text;
    assert forall m :: IsPending(t, m) <==> m == c.requested by {
      assert t.outgoing[id] == c.requested && id in t.outgoing;
    }
  }

  lemma AgentResponseKeepsSoundness(s: WireState, c: Content)
    requires StateIsSound(s) && c.AgentResponse? && c.responseId.Some? && CheckAgentResponse(s, c).problem.None?
    ensures StateIsSound(CheckAgentResponse(s, c).state)
    ensures CheckAgentResponse(s, c).state.outgoing == map[]
  {
    var t := CheckAgentResponse(s, c).state;
    assert t.outgoing == map[];
    assert IsPending(s, s.outgoing[c.responseId.value.text]);
  }

  // ---- Requests are sent once, in order ----

  function Count(frames: seq<Frame>, m: HostMethod): nat {
    if frames == [] then 0 else Count(frames[..|frames| - 1], m) + Bit(Sends(frames[|frames| - 1], m))
  }

  predicate Sends(f: Frame, m: HostMethod) {
    f.content.HostRequest? && f.content.requested == m
  }

  function Bit(b: bool): nat {
    if b then 1 else 0
  }

  /** The phase and the outstanding request say exactly which requests were sent. */
  predicate PhaseCounts(s: WireState, frames: seq<Frame>) {
    && Count(frames, Initialize) == Bit(!s.phase.New? || IsPending(s, Initialize))
    && Count(frames, NewSession) == Bit(s.phase.Ready? || s.phase.Prompting? || s.phase.Terminal? || IsPending(s, NewSession))
    && Count(frames, Prompt) == Bit(s.phase.Prompting? || s.phase.Terminal?)
  }

  lemma {:induction false} AcceptedIsSound(limits: Limits, gooseInventory: bool, frames: seq<Frame>)
    requires AcceptAll(limits, gooseInventory, frames).Some?
    ensures StateIsSound(AcceptAll(limits, gooseInventory, frames).value)
    ensures PhaseCounts(AcceptAll(limits, gooseInventory, frames).value, frames)
  {
    hide CheckContent, StateIsSound, PhaseCounts;
    if frames == [] {
      InitialIsSound(gooseInventory);
    } else {
      var last := |frames| - 1;
      AcceptedIsSound(limits, gooseInventory, frames[..last]);
      var s := AcceptAll(limits, gooseInventory, frames[..last]).value;
      var t := s.(messages := s.messages + 1, totalBytes := Min(s.totalBytes + frames[last].bytes, MAX_USIZE));
      MeteringKeepsSoundness(s, t, frames[..last]);
      ContentKeepsSoundness(t, frames[last].content);
      ContentKeepsCounts(t, frames[..last], frames[last]);
      assert frames[..last] + [frames[last]] == frames;
    }
  }

  lemma InitialIsSound(gooseInventory: bool)
    ensures StateIsSound(InitialState(gooseInventory)) && PhaseCounts(InitialState(gooseInventory), [])
  {
  }

  lemma MeteringKeepsSoundness(s: WireState, t: WireState, frames: seq<Frame>)
    requires StateIsSound(s) && PhaseCounts(s, frames) && t == s.(messages := t.messages, totalBytes := t.totalBytes)
    ensures StateIsSound(t) && PhaseCounts(t, frames)
  {
    PendingIsSame(s, t);
  }

  lemma CountGrows(frames: seq<Frame>, f: Frame)
    ensures forall m :: Count(frames + [f], m) == Count(frames, m) + Bit(Sends(f, m))
  {
    assert (frames + [f])[..|frames|] == frames;
  }

  lemma RequestKeepsCounts(s: WireState, frames: seq<Frame>, f: Frame)
    requires StateIsSound(s) && PhaseCounts(s, frames) && f.content.HostRequest? && CheckContent(s, f.content).problem.None?
    ensures PhaseCounts(CheckContent(s, f.content).state, frames + [f])
  {
    hide AtMostOnePending, Count;
    CountGrows(frames, f);
    var t := CheckContent(s, f.content).state;
    var id := f.content.requestId.value.text;
    assert id in t.outgoing && t.outgoing[id] == f.content.requested;
    assert forall m :: IsPending(t, m) <==> m == f.content.requested;
    assert forall m :: !IsPending(s, m);
  }

  lemma ResponseKeepsCounts(s: WireState, frames: seq<Frame>, f: Frame)
    requires StateIsSound(s) && PhaseCounts(s, frames) && f.content.AgentResponse? && CheckContent(s, f.content).problem.None?
    ensures PhaseCounts(CheckContent(s, f.content).state, frames + [f])
  {
    hide Count;
    CountGrows(frames, f);
    AgentResponseKeepsSoundness(s, f.content);
    var requested := s.outgoing[f.content.responseId.value.text];
    assert IsPending(s, requested);
    assert forall m :: !IsPending(CheckContent(s, f.content).state, m);
  }

  lemma ContentKeepsCounts(s: WireState, frames: seq<Frame>, f: Frame)
    requires StateIsSound(s) && PhaseCounts(s, frames) && CheckContent(s, f.content).problem.None?
    ensures PhaseCounts(CheckContent(s, f.content).state, frames + [f])
  {
    if f.content.HostRequest? {
      RequestKeepsCounts(s, frames, f);
    } else if f.content.AgentResponse? {
      ResponseKeepsCounts(s, frames, f);
    } else {
      hide Count, StateIsSound, IsPending;
      CountGrows(frames, f);
      var t := CheckContent(s, f.content).state;
      assert t.outgoing == s.outgoing && t.phase == s.phase;
      PendingIsSame(s, t);
    }
  }

  /** Every prefix of an accepted sequence is accepted. */
  lemma {:induction false} PrefixIsAccepted(limits: Limits, gooseInventory: bool, frames: seq<Frame>, n: nat)
    requires n <= |frames| && AcceptAll(limits, gooseInventory, frames).Some?
    ensures AcceptAll(limits, gooseInventory, frames[..n]).Some?
    decreases |frames|
  {
    if n == |frames| {
      assert frames[..n] == frames;
    } else {
      var shorter := frames[..|frames| - 1];
      assert shorter[..n] == frames[..n];
      PrefixIsAccepted(limits, gooseInventory, shorter, n);
    }
  }

  /** At every moment the session has initialised before it opens, opened before it prompts, and done each at most once; at
      most one request is outstanding in each direction. */
  lemma RequestsAreOrdered(limits: Limits, gooseInventory: bool, frames: seq<Frame>, n: nat)
    requires n <= |frames| && AcceptAll(limits, gooseInventory, frames).Some?
    ensures AcceptAll(limits, gooseInventory, frames[..n]).Some?
    ensures 1 >= Count(frames[..n], Initialize) >= Count(frames[..n], NewSession) >= Count(frames[..n], Prompt)
    ensures var s := AcceptAll(limits, gooseInventory, frames[..n]).value;
            && (forall a, b | a in s.outgoing && b in s.outgoing :: a == b)
            && (forall a, b | a in s.incoming && b in s.incoming :: a == b)
  {
    PrefixIsAccepted(limits, gooseInventory, frames, n);
    AcceptedIsSound(limits, gooseInventory, frames[..n]);
  }

  /** A frame is checked as content once its line, the limits and its identifier have passed. */
  predicate IsMetered(limits: Limits, s: WireState, f: Frame) {
    && f.bytes <= limits.maxFrame && f.fault.None?
    && Min(s.totalBytes + f.bytes, MAX_USIZE) <= limits.maxTotal && s.messages < limits.maxMessages
    && (f.content.Id().Some? ==> f.content.Id().value.isValid)
  }

  /** The frame answers an outstanding request. */
  predicate Answers(limits: Limits, s: WireState, f: Frame) {
    && IsMetered(limits, s, f) && f.content.AgentResponse? && f.content.isExclusive
    && f.content.responseId.Some? && f.content.responseId.value.text in s.outgoing
  }

  /** A rejected frame leaves the phase and the outstanding requests alone, except that the request it answers is forgotten. */
  lemma RejectionKeepsOutgoing(limits: Limits, s: WireState, f: Frame)
    requires StateIsSound(s) && CheckFrame(limits, s, f).problem.Some?
    ensures CheckFrame(limits, s, f).state.phase == s.phase
    ensures CheckFrame(limits, s, f).state.outgoing == if Answers(limits, s, f) then map[] else s.outgoing
  {
    if f.content.AgentResponse? && f.content.responseId.Some? && f.content.responseId.value.text in s.outgoing {
      assert s.outgoing - {f.content.responseId.value.text} == map[];
    }
  }

  /** Only accepted frames are ordered: while `initialize` is outstanding, a rejected frame makes it acceptable again exactly when that
      frame is an answer to it. */
  lemma RejectedAnswerReopens(limits: Limits, s: WireState, f: Frame, request: Frame)
    requires StateIsSound(s) && IsPending(s, Initialize) && CheckFrame(limits, s, f).problem.Some?
    requires request.content.HostRequest? && request.content.requested.Initialize? && request.content.requestId.Some?
    requires IsMetered(limits, CheckFrame(limits, s, f).state, request)
    ensures CheckFrame(limits, CheckFrame(limits, s, f).state, request).problem.None? <==> Answers(limits, s, f)
  {
    RejectionKeepsOutgoing(limits, s, f);
    hide CheckContent, Answers;
    MeteredRequestIsChecked(limits, CheckFrame(limits, s, f).state, request);
  }

  lemma MeteredRequestIsChecked(limits: Limits, s: WireState, request: Frame)
    requires request.content.HostRequest? && request.content.requested.Initialize? && request.content.requestId.Some? && IsMetered(limits, s, request)
    ensures CheckFrame(limits, s, request).problem.None? <==> s.phase.New? && s.outgoing == map[]
  {
  }

  // ---- Calls, tools, the end and the limits ----

  function CallIds(frames: seq<Frame>): seq<string> {
    if frames == [] then []
    else
      var earlier, c := CallIds(frames[..|frames| - 1]), frames[|frames| - 1].content;
      if c.AgentCall? && c.callId.Some? then earlier + [c.callId.value.text] else earlier
  }

  /** An incoming identifier is never used twice. */
  lemma {:induction false} CallIdsAreNew(limits: Limits, gooseInventory: bool, frames: seq<Frame>)
    requires AcceptAll(limits, gooseInventory, frames).Some?
    ensures forall i, j | 0 <= i < j < |CallIds(frames)| :: CallIds(frames)[i] != CallIds(frames)[j]
    ensures forall id | id in CallIds(frames) :: id in AcceptAll(limits, gooseInventory, frames).value.answered
  {
    hide ApplyUpdate, CheckHostRequest, CheckAgentResponse, ExpectedPhase;
    if frames != [] {
      CallIdsAreNew(limits, gooseInventory, frames[..|frames| - 1]);
      var before := AcceptAll(limits, gooseInventory, frames[..|frames| - 1]).value;
      AnsweredGrows(limits, before, frames[|frames| - 1]);
    }
  }

  lemma AnsweredGrows(limits: Limits, s: WireState, f: Frame)
    requires CheckFrame(limits, s, f).problem.None?
    ensures s.answered <= CheckFrame(limits, s, f).state.answered
    ensures f.content.AgentCall? && f.content.callId.Some? ==>
              f.content.callId.value.text !in s.answered && f.content.callId.value.text in CheckFrame(limits, s, f).state.answered
  {
  }

  /** A tool call never regresses, and a final status never changes. */
  predicate ToolsAdvance(s: WireState, t: WireState) {
    forall tool | tool in s.tools ::
      tool in t.tools && s.tools[tool].Rank() <= t.tools[tool].Rank() && (s.tools[tool].IsFinal() ==> t.tools[tool] == s.tools[tool])
  }

  lemma UpdateAdvancesTools(s: WireState, update: Update)
    requires ApplyUpdate(s, update).problem.None?
    ensures ToolsAdvance(s, ApplyUpdate(s, update).state)
  {
  }

  lemma FrameAdvancesTools(limits: Limits, s: WireState, f: Frame)
    requires CheckFrame(limits, s, f).problem.None?
    ensures ToolsAdvance(s, CheckFrame(limits, s, f).state)
  {
    hide ApplyUpdate;
    var t := s.(messages := s.messages + 1, totalBytes := Min(s.totalBytes + f.bytes, MAX_USIZE));
    if f.content.AgentCall? && f.content.callId.None? && ApplyUpdate(t, f.content.update).problem.None? {
      UpdateAdvancesTools(t, f.content.update);
    }
  }

  lemma {:induction false} ToolsNeverRegress(limits: Limits, gooseInventory: bool, frames: seq<Frame>, n: nat)
    requires n <= |frames| && AcceptAll(limits, gooseInventory, frames).Some?
    ensures AcceptAll(limits, gooseInventory, frames[..n]).Some?
    ensures ToolsAdvance(AcceptAll(limits, gooseInventory, frames[..n]).value, AcceptAll(limits, gooseInventory, frames).value)
    decreases |frames|
  {
    hide CheckFrame;
    if n == |frames| {
      assert frames[..n] == frames;
    } else {
      var shorter := frames[..|frames| - 1];
      assert shorter[..n] == frames[..n];
      ToolsNeverRegress(limits, gooseInventory, shorter, n);
      FrameAdvancesTools(limits, AcceptAll(limits, gooseInventory, shorter).value, frames[|frames| - 1]);
    }
  }

  /** The session ends with nothing pending and every tool call finished, and accepts only cancellations afterwards. */
  lemma TerminalIsFinal(limits: Limits, gooseInventory: bool, frames: seq<Frame>, f: Frame)
    requires AcceptAll(limits, gooseInventory, frames).Some? && AcceptAll(limits, gooseInventory, frames).value.phase.Terminal?
    ensures var s := AcceptAll(limits, gooseInventory, frames).value;
            s.outgoing == map[] && s.incoming == {} && forall tool | tool in s.tools :: s.tools[tool].IsFinal()
    ensures AcceptAll(limits, gooseInventory, frames + [f]).Some? ==>
              f.content == HostNotice(None, true) && AcceptAll(limits, gooseInventory, frames + [f]).value.phase.Terminal?
  {
    AcceptedIsSound(limits, gooseInventory, frames);
    assert (frames + [f])[..|frames|] == frames;
  }

  // ---- Which session a call names ----

  predicate AsksForSession(f: Frame, id: string) {
    f.content.HostRequest? && f.content.requested.NewSession? && f.content.requestId.Some? && f.content.requestId.value.text == id
  }

  /** Frame `j` is the answer to the request for a session in frame `i`, and names this session. */
  predicate OpensSession(frames: seq<Frame>, i: nat, j: nat, session: Option<string>)
    requires i < j < |frames|
  {
    var answer := frames[j].content;
    && answer.AgentResponse? && answer.responseId.Some? && AsksForSession(frames[i], answer.responseId.value.text)
    && answer.isExclusive && answer.reply.ResultReply? && answer.reply.isValid && answer.reply.session == session && session.Some?
  }

  predicate SessionIsOpened(frames: seq<Frame>, session: Option<string>) {
    exists i, j | 0 <= i < j < |frames| :: OpensSession(frames, i, j, session)
  }

  /** The session is the one that was asked for and granted, and is known from then on. */
  predicate SessionFits(s: WireState, frames: seq<Frame>) {
    && (forall id | id in s.outgoing && s.outgoing[id].NewSession? :: exists i | 0 <= i < |frames| :: AsksForSession(frames[i], id))
    && (s.session.Some? <==> s.phase in {Ready, Prompting, Terminal})
    && (s.session.Some? ==> SessionIsOpened(frames, s.session))
  }

  lemma OpenedStaysOpened(frames: seq<Frame>, f: Frame, session: Option<string>)
    requires SessionIsOpened(frames, session)
    ensures SessionIsOpened(frames + [f], session)
  {
    var i, j :| 0 <= i < j < |frames| && OpensSession(frames, i, j, session);
    assert OpensSession(frames + [f], i, j, session);
  }

  lemma AskedStaysAsked(s: WireState, frames: seq<Frame>, f: Frame)
    requires SessionFits(s, frames)
    ensures forall id | id in s.outgoing && s.outgoing[id].NewSession? :: exists i | 0 <= i < |frames + [f]| :: AsksForSession((frames + [f])[i], id)
  {
    forall id | id in s.outgoing && s.outgoing[id].NewSession? ensures exists i | 0 <= i < |frames + [f]| :: AsksForSession((frames + [f])[i], id) {
      var i :| 0 <= i < |frames| && AsksForSession(frames[i], id);
      assert AsksForSession((frames + [f])[i], id);
    }
  }

  lemma ContentKeepsSession(s: WireState, frames: seq<Frame>, f: Frame)
    requires StateIsSound(s) && SessionFits(s, frames) && CheckContent(s, f.content).problem.None?
    ensures SessionFits(CheckContent(s, f.content).state, frames + [f])
  {
    hide AtMostOnePending, SessionIsOpened, AsksForSession, ApplyUpdate;
    AskedStaysAsked(s, frames, f);
    if s.session.Some? {
      OpenedStaysOpened(frames, f, s.session);
    }
    if f.content.HostRequest? {
      RequestKeepsSession(s, frames, f);
    } else if f.content.AgentResponse? {
      ResponseKeepsSession(s, frames, f);
    } else {
      OthersKeepSession(s, f.content);
    }
  }

  lemma OthersKeepSession(s: WireState, c: Content)
    requires !c.HostRequest? && !c.AgentResponse?
    ensures var t := CheckContent(s, c).state; t.outgoing == s.outgoing && t.session == s.session && t.phase == s.phase
  {
  }

  lemma RequestKeepsSession(s: WireState, frames: seq<Frame>, f: Frame)
    requires f.content.HostRequest? && StateIsSound(s) && SessionFits(s, frames) && CheckContent(s, f.content).problem.None?
    requires forall id | id in s.outgoing && s.outgoing[id].NewSession? :: exists i | 0 <= i < |frames + [f]| :: AsksForSession((frames + [f])[i], id)
    requires s.session.Some? ==> SessionIsOpened(frames + [f], s.session)
    ensures SessionFits(CheckContent(s, f.content).state, frames + [f])
  {
    hide StateIsSound, SessionIsOpened, AsksForSession;
    var t := CheckContent(s, f.content).state;
    if f.content.requested.NewSession? {
      RequestIsAsked(frames, f);
    }
    assert forall id | id in t.outgoing :: id in s.outgoing || id == f.content.requestId.value.text;
  }

  lemma ResponseKeepsSession(s: WireState, frames: seq<Frame>, f: Frame)
    requires f.content.AgentResponse? && StateIsSound(s) && SessionFits(s, frames) && CheckContent(s, f.content).problem.None?
    requires forall id | id in s.outgoing && s.outgoing[id].NewSession? :: exists i | 0 <= i < |frames + [f]| :: AsksForSession((frames + [f])[i], id)
    requires s.session.Some? ==> SessionIsOpened(frames + [f], s.session)
    ensures SessionFits(CheckContent(s, f.content).state, frames + [f])
  {
    hide AtMostOnePending, SessionIsOpened, AsksForSession;
    var id := f.content.responseId.value.text;
    assert IsPending(s, s.outgoing[id]);
    if s.outgoing[id].NewSession? {
      var i :| 0 <= i < |frames| && AsksForSession(frames[i], id);
      SessionIsGranted(s, frames, f, i);
    }
  }

  lemma RequestIsAsked(frames: seq<Frame>, f: Frame)
    requires f.content.HostRequest? && f.content.requested.NewSession? && f.content.requestId.Some?
    ensures AsksForSession((frames + [f])[|frames|], f.content.requestId.value.text)
  {
  }

  lemma SessionIsGranted(s: WireState, frames: seq<Frame>, f: Frame, i: nat)
    requires f.content.AgentResponse? && f.content.responseId.Some? && CheckContent(s, f.content).problem.None?
    requires f.content.responseId.value.text in s.outgoing && s.outgoing[f.content.responseId.value.text].NewSession?
    requires i < |frames| && AsksForSession(frames[i], f.content.responseId.value.text)
    ensures SessionIsOpened(frames + [f], CheckContent(s, f.content).state.session)
  {
    assert OpensSession(frames + [f], i, |frames|, f.content.reply.session);
  }

  lemma {:induction false} AcceptedSessionFits(limits: Limits, gooseInventory: bool, frames: seq<Frame>)
    requires AcceptAll(limits, gooseInventory, frames).Some?
    ensures SessionFits(AcceptAll(limits, gooseInventory, frames).value, frames)
  {
    hide CheckContent, StateIsSound, PhaseCounts, SessionIsOpened;
    if frames != [] {
      var last := |frames| - 1;
      AcceptedSessionFits(limits, gooseInventory, frames[..last]);
      AcceptedIsSound(limits, gooseInventory, frames[..last]);
      var s := AcceptAll(limits, gooseInventory, frames[..last]).value;
      var t := s.(messages := s.messages + 1, totalBytes := Min(s.totalBytes + frames[last].bytes, MAX_USIZE));
      MeteringKeepsSoundness(s, t, frames[..last]);
      ContentKeepsSession(t, frames[..last], frames[last]);
      assert frames[..last] + [frames[last]] == frames;
    }
  }

  /** Every accepted call of the agent names the one session that the host had asked for and the agent had granted before. */
  lemma CallsNameTheSession(limits: Limits, gooseInventory: bool, frames: seq<Frame>, k: nat)
    requires AcceptAll(limits, gooseInventory, frames).Some? && k < |frames| && frames[k].content.AgentCall?
    ensures SessionIsOpened(frames[..k], frames[k].content.session)
    ensures AcceptAll(limits, gooseInventory, frames[..k]).Some?
    ensures frames[k].content.session == AcceptAll(limits, gooseInventory, frames[..k]).value.session
    ensures frames[k].content.callId.Some? ==> AcceptAll(limits, gooseInventory, frames[..k]).value.phase.Prompting?
  {
    PrefixIsAccepted(limits, gooseInventory, frames, k);
    PrefixIsAccepted(limits, gooseInventory, frames, k + 1);
    AcceptedSessionFits(limits, gooseInventory, frames[..k]);
    assert frames[..k + 1][..k] == frames[..k] && frames[..k + 1][k] == frames[k];
  }

  function TotalBytes(frames: seq<Frame>): nat {
    if frames == [] then 0 else TotalBytes(frames[..|frames| - 1]) + frames[|frames| - 1].bytes
  }

  /** Accepted sequences stay within the message and byte limits. */
  lemma {:induction false} LimitsHold(limits: Limits, gooseInventory: bool, frames: seq<Frame>)
    requires AcceptAll(limits, gooseInventory, frames).Some? && limits.maxTotal < MAX_USIZE
    ensures |frames| <= limits.maxMessages && (frames != [] ==> TotalBytes(frames) <= limits.maxTotal)
    ensures AcceptAll(limits, gooseInventory, frames).value.messages == |frames|
    ensures AcceptAll(limits, gooseInventory, frames).value.totalBytes == TotalBytes(frames)
  {
    hide CheckContent;
    if frames != [] {
      LimitsHold(limits, gooseInventory, frames[..|frames| - 1]);
      ContentKeepsMeters(AcceptAll(limits, gooseInventory, frames[..|frames| - 1]).value.(
        messages := |frames|, totalBytes := Min(TotalBytes(frames[..|frames| - 1]) + frames[|frames| - 1].bytes, MAX_USIZE)), frames[|frames| - 1].content);
    }
  }

  lemma ContentKeepsMeters(s: WireState, c: Content)
    ensures CheckContent(s, c).state.messages == s.messages && CheckContent(s, c).state.totalBytes == s.totalBytes
  {
  }

  // ---- The state in place ----

  /** The protocol state that both directions of the transport share. */
  class ProtocolState {
    const limits: Limits
    var phase: Phase
    var session: Option<string>
    var outgoing: map<string, HostMethod>
    var incoming: set<string>
    var answered: set<string>
    var tools: map<string, ToolStatus>
    var messages: nat
    var totalBytes: nat
    var outputSeen: bool
    const gooseInventory: bool
    var inventorySeen: bool

    function View(): WireState
      reads this
    {
      WireState(phase, session, outgoing, incoming, answered, tools, messages, totalBytes, outputSeen, gooseInventory, inventorySeen)
    }

    constructor (limits: Limits, gooseInventory: bool)
      ensures this.limits == limits && this.gooseInventory == gooseInventory && View() == InitialState(gooseInventory)
    {
      this.limits, this.gooseInventory := limits, gooseInventory;
      phase, session, outgoing, incoming, answered := New, None, map[], {}, {};
      tools, messages, totalBytes, outputSeen, inventorySeen := map[], 0, 0, false, false;
    }

    /** Checks one frame and updates the state step by step, also where the frame is then rejected. */
    method ValidateMessage(f: Frame) returns (problem: Option<WireError>)
      modifies this
      ensures View() == CheckFrame(limits, old(View()), f).state && problem == CheckFrame(limits, old(View()), f).problem
    {
      hide CheckContent;
      if f.bytes > limits.maxFrame {
        return Some(FrameLimit);
      }
      if f.fault.Some? {
        return Some(FaultError(f.fault.value));
      }
      messages := messages + 1;
      totalBytes := Min(totalBytes + f.bytes, MAX_USIZE);
      if totalBytes > limits.maxTotal {
        return Some(TotalBytesLimit);
      }
      if messages > limits.maxMessages {
        return Some(MessageLimit);
      }
      if f.content.Id().Some? && !f.content.Id().value.isValid {
        return Some(InvalidId);
      }
      problem := ReceiveContent(f.content);
    }

    /** Checks what a metered frame says. */
    method ReceiveContent(c: Content) returns (problem: Option<WireError>)
      modifies this`phase, this`session, this`outgoing, this`incoming, this`answered, this`tools, this`outputSeen, this`inventorySeen
      ensures View() == CheckContent(old(View()), c).state && problem == CheckContent(old(View()), c).problem
    {
      hide CheckAgentCall, CheckAgentResponse, CheckHostRequest;
      match c {
        case AgentCall(_, _, _, _, _) => problem := ReceiveCall(c);
        case MalformedCall(_, defect) => problem := Some(DefectError(defect));
        case AgentResponse(id, isExclusive, _) =>
          if id.None? {
            return Some(MissingId);
          }
          if !isExclusive {
            return Some(InvalidResponse);
          }
          problem := ReceiveResponse(c);
        case HostRequest(id, _, _) =>
          if id.None? {
            return Some(UnsupportedNotification);
          }
          problem := SendRequest(c);
        case HostNotice(id, isCancel) =>
          problem := if id.Some? then Some(UnsupportedRequest) else if isCancel then None else Some(UnsupportedNotification);
        case HostResponse(id, isExclusive) =>
          if id.None? {
            return Some(MissingId);
          }
          if !isExclusive {
            return Some(InvalidResponse);
          }
          if id.value.text !in incoming {
            return Some(UnexpectedResponse);
          }
          incoming := incoming - {id.value.text};
          problem := None;
      }
    }

    method ReceiveCall(c: Content) returns (problem: Option<WireError>)
      requires c.AgentCall?
      modifies this`answered, this`incoming, this`tools, this`outputSeen
      ensures View() == CheckAgentCall(old(View()), c).state && problem == CheckAgentCall(old(View()), c).problem
    {
      var passive := gooseInventory && c.call.SessionUpdate? && c.update.IsPassive();
      if (phase != Prompting && !(passive && phase == Ready)) || c.session != session {
        return Some(SessionOrder);
      }
      if c.callId.Some? {
        var id := c.callId.value.text;
        if incoming != {} {
          return Some(DuplicateRequest);
        }
        var isNew := id !in answered;
        answered := answered + {id};
        if !isNew {
          return Some(DuplicateRequest);
        }
        if !(c.call.ReadFile? || c.call.WriteFile? || c.call.AskPermission?) {
          return Some(UnsupportedEffect);
        }
        if !c.call.AskPermission? && c.fault.IsIncomplete? {
          return Some(IncompleteInput);
        }
        if !c.call.AskPermission? && c.fault.HasBadRange? {
          return Some(InvalidFileRange);
        }
        incoming := incoming + {id};
      } else {
        if !c.call.SessionUpdate? {
          return Some(UnsupportedNotification);
        }
        if !passive {
          problem := ReceiveUpdate(c.update);
          return;
        }
      }
      problem := None;
    }

    method ReceiveUpdate(update: Update) returns (problem: Option<WireError>)
      modifies this`tools, this`outputSeen
      ensures View() == ApplyUpdate(old(View()), update).state && problem == ApplyUpdate(old(View()), update).problem
    {
      match update {
        case Chunk(isText) =>
          outputSeen := true;
          problem := if isText then None else Some(InvalidContent);
        case ToolCall(tool, status) =>
          if tool.None? {
            return Some(InvalidToolId);
          }
          var start := if status.Known? then status.status else Pending;
          if status.OtherText? || start.IsFinal() {
            return Some(ToolOrder);
          }
          problem := if tool.value in tools then Some(ToolOrder) else None;
          tools := tools[tool.value := start];
        case ToolUpdate(tool, status) =>
          if tool.None? {
            return Some(InvalidToolId);
          }
          if tool.value !in tools || tools[tool.value].IsFinal() {
            return Some(ToolOrder);
          }
          if status.NotText? {
            return Some(InvalidToolStatus);
          }
          if status.OtherText? || (status.Known? && tools[tool.value].InProgress? && status.status.Pending?) {
            return Some(ToolOrder);
          }
          if status.Known? {
            tools := tools[tool.value := status.status];
          }
          problem := None;
        case Plan => problem := None;
        case UsageUpdate => problem := None;
        case NoUpdate => problem := Some(InvalidUpdate);
        case _ => problem := Some(UnsupportedUpdate);
      }
    }

    method SendRequest(c: Content) returns (problem: Option<WireError>)
      requires c.HostRequest? && c.requestId.Some?
      modifies this`inventorySeen, this`phase, this`outgoing
      ensures View() == CheckHostRequest(old(View()), c).state && problem == CheckHostRequest(old(View()), c).problem
    {
      var expected := ExpectedPhase(View(), c.requested);
      if expected.None? {
        return Some(UnsupportedRequest);
      }
      if phase != expected.value || outgoing != map[] {
        return Some(RequestOrder);
      }
      if c.requested.Inventory? {
        if c.requestSession != session {
          return Some(SessionOrder);
        }
        inventorySeen := true;
      }
      if c.requested.Prompt? {
        if gooseInventory && !inventorySeen {
          return Some(InventoryRequired);
        }
        phase := Prompting;
      }
      outgoing := outgoing[c.requestId.value.text := c.requested];
      problem := None;
    }

    method ReceiveResponse(c: Content) returns (problem: Option<WireError>)
      requires c.AgentResponse? && c.responseId.Some?
      modifies this`outgoing, this`phase, this`session
      ensures View() == CheckAgentResponse(old(View()), c).state && problem == CheckAgentResponse(old(View()), c).problem
    {
      var id := c.responseId.value.text;
      if id !in outgoing {
        return Some(UnexpectedResponse);
      }
      var requested := outgoing[id];
      outgoing := outgoing - {id};
      if c.reply.ErrorReply? {
        return Some(if c.reply.needsAuthentication then AuthenticationRequired else AgentError);
      }
      if requested.OtherRequest? {
        return Some(UnexpectedResponse);
      }
      if !c.reply.isValid {
        return Some(if requested.Inventory? then MalformedInventory else MalformedResult);
      }
      match requested {
        case Initialize =>
          if !c.reply.versionIsOne {
            return Some(VersionMismatch);
          }
          if !c.reply.hasIdentity {
            return Some(MissingIdentity);
          }
          phase := Initialized;
        case NewSession =>
          if c.reply.session.None? {
            return Some(InvalidSession);
          }
          session := c.reply.session;
          phase := Ready;
        case Inventory =>
        case Prompt =>
          if incoming != {} || exists tool | tool in tools :: !tools[tool].IsFinal() {
            return Some(IncompleteOperations);
          }
          if !c.reply.hasStopReason {
            return Some(MissingStopReason);
          }
          phase := Terminal;
      }
      problem := None;
    }
  }
}

/** The ACP host port as a step system: any number of callers, one worker thread, wire faults, cancellation and timeouts. */
module AcpHostPort {
  import opened Text

  type CallId = nat

  datatype Call = UsageCall | ExecuteCall(effect: string)

  /** What the worker answers. */
  datatype Reply = UsageReply | DeclinedReply | AttemptedReply

  /** What a caller is told; a call whose wait failed counts as attempted with an unknown outcome. */
  datatype CallOutcome = Declined | Attempted | UnknownAttempt | UsageReturned

  /** Where a caller stands in `begin`, `try_send` and the wait. A wait that expired is followed by two stores: the caller
      quarantines the port, then cancels the session, and then returns. */
  datatype CallerState = Entered | QuarantineRead | FlagsRead | BusyClaimed | Waiting | Expired | GaveUp | Returned(outcome: CallOutcome)
  {
    /** The command was sent, and its caller has not returned. */
    predicate IsPending() {
      Waiting? || Expired? || GaveUp?
    }
  }

  /** Where the worker stands. The evidence lock is held from `FaultRead` until the claim is taken or refused; it orders the
      faults only, not the stores of the quarantine and cancellation flags. The busy flag is cleared between `Answered` and
      `Released`. */
  datatype WorkerState =
    | Idle
    | Received(call: CallId)
    | FaultRead(call: CallId)
    | CancelRead(call: CallId)
    | ExpiryRead(call: CallId)
    | Claimed(call: CallId)
    | Answered(call: CallId, reply: Reply)
    | Released(call: CallId, reply: Reply)
    | Dead

  datatype State = State(
    quarantined: bool,
    cancelled: bool,
    busy: bool,
    failure: Option<string>,
    queue: seq<CallId>,
    worker: WorkerState,
    calls: map<CallId, Call>,
    callers: map<CallId, CallerState>,
    replies: map<CallId, Reply>,
    /** The dispatch claims, and the calls of the host's `execute`, in order. */
    claims: seq<CallId>,
    executed: seq<CallId>,
    /** The call that set the busy flag last. */
    holder: Option<CallId>)
  {
    predicate CallerIs(c: CallId, at: CallerState) {
      c in calls && c in callers && callers[c] == at
    }

    function Move(c: CallId, to: CallerState): State {
      this.(callers := callers[c := to])
    }

    /** How a call that is turned away before it is queued returns. */
    function TurnAway(c: CallId): State
      requires c in calls
    {
      Move(c, Returned(if calls[c].UsageCall? then UsageReturned else Declined))
    }

    predicate WorkerIsWorking() {
      worker.Received? || LockIsHeld() || worker.Claimed? || worker.Answered?
    }

    predicate LockIsHeld() {
      worker.FaultRead? || worker.CancelRead? || worker.ExpiryRead?
    }
  }

  const INITIAL := State(false, false, false, None, [], Idle, map[], map[], map[], [], [], None)

  const CHANNEL_CAPACITY: nat := 1

  datatype Action =
    | Enter(c: CallId, call: Call)
    | ReadQuarantine(c: CallId)
    | ReadCancelled(c: CallId)
    | MissDeadline(c: CallId)
    | ClaimBusy(c: CallId)
    | Send(c: CallId)
    | Receive
    | ReadFault
    | ReadCancellation
    | ReadExpiry(expired: bool)
    | TakeClaim(named: bool)
    | AnswerUsage
    | CallHost
    | HostPanics
    | ClearBusy
    | SendReply
    | ReturnReply(c: CallId)
    | WaitExpires(c: CallId)
    | GiveUp(c: CallId)
    | CancelSession(c: CallId)
    | RecordFault(code: string)
    | Cancel

  predicate IsEnabled(s: State, a: Action) {
    match a
    case Enter(c, _) => c !in s.calls
    case ReadQuarantine(c) => s.CallerIs(c, Entered)
    case ReadCancelled(c) => s.CallerIs(c, QuarantineRead)
    case MissDeadline(c) => s.CallerIs(c, FlagsRead)
    case ClaimBusy(c) => s.CallerIs(c, FlagsRead)
    case Send(c) => s.CallerIs(c, BusyClaimed)
    case Receive => s.worker.Idle? && s.queue != []
    case ReadFault => s.worker.Received? && s.worker.call in s.calls && s.calls[s.worker.call].ExecuteCall?
    case ReadCancellation => s.worker.FaultRead?
    case ReadExpiry(_) => s.worker.CancelRead?
    case TakeClaim(_) => s.worker.ExpiryRead?
    case AnswerUsage => s.worker.Received? && s.worker.call in s.calls && s.calls[s.worker.call].UsageCall?
    case CallHost => s.worker.Claimed?
    case HostPanics => s.worker.Claimed? || (s.worker.Received? && s.worker.call in s.calls && s.calls[s.worker.call].UsageCall?)
    case ClearBusy => s.worker.Answered?
    case SendReply => s.worker.Released?
    case ReturnReply(c) => s.CallerIs(c, Waiting) && c in s.replies
    case WaitExpires(c) => s.CallerIs(c, Waiting) && c !in s.replies
    case GiveUp(c) => s.CallerIs(c, Expired)
    case CancelSession(c) => s.CallerIs(c, GaveUp)
    case RecordFault(_) => !s.LockIsHeld()
    case Cancel => true
  }

  function OutcomeOf(reply: Reply): CallOutcome {
    match reply
    case UsageReply => UsageReturned
    case DeclinedReply => Declined
    case AttemptedReply => Attempted
  }

  /** Steps of the worker thread; all others belong to a caller or to the session. */
  predicate IsWorkerStep(a: Action) {
    a.Receive? || a.ReadFault? || a.ReadCancellation? || a.ReadExpiry? || a.TakeClaim? || a.AnswerUsage? || a.CallHost? || a.HostPanics? || a.ClearBusy? || a.SendReply?
  }

  function NextOfCaller(s: State, a: Action): State
    requires IsEnabled(s, a) && !IsWorkerStep(a)
  {
    match a
    case Enter(c, call) => s.(calls := s.calls[c := call], callers := s.callers[c := Entered])
    case ReadQuarantine(c) => if s.quarantined then s.TurnAway(c) else s.Move(c, QuarantineRead)
    // Usage is reconciled even after cancellation.
    case ReadCancelled(c) => if s.cancelled && s.calls[c].ExecuteCall? then s.TurnAway(c) else s.Move(c, FlagsRead)
    case MissDeadline(c) => s.TurnAway(c)
    case ClaimBusy(c) => if s.busy then s.TurnAway(c) else s.Move(c, BusyClaimed).(busy := true, holder := Some(c))
    // A refused send leaves the busy flag set.
    case Send(c) =>
      if s.worker.Dead? || |s.queue| >= CHANNEL_CAPACITY then s.TurnAway(c)
      else s.Move(c, Waiting).(queue := s.queue + [c])
    case ReturnReply(c) => s.Move(c, Returned(OutcomeOf(s.replies[c])))
    case WaitExpires(c) => s.Move(c, Expired)
    case GiveUp(c) => s.Move(c, GaveUp).(quarantined := true)
    case CancelSession(c) => s.Move(c, Returned(if s.calls[c].UsageCall? then UsageReturned else UnknownAttempt)).(cancelled := true)
    case RecordFault(code) => if s.failure.Some? then s else s.(failure := Some(code))
    case Cancel => s.(cancelled := true)
  }

  function NextOfWorker(s: State, a: Action): State
    requires IsEnabled(s, a) && IsWorkerStep(a)
  {
    match a
    case Receive => s.(worker := Received(s.queue[0]), queue := s.queue[1..])
    case ReadFault => s.(worker := if s.failure.Some? then Answered(s.worker.call, DeclinedReply) else FaultRead(s.worker.call))
    case ReadCancellation => s.(worker := if s.cancelled then Answered(s.worker.call, DeclinedReply) else CancelRead(s.worker.call))
    case ReadExpiry(expired) =>
      s.(worker := if expired || s.quarantined then Answered(s.worker.call, DeclinedReply) else ExpiryRead(s.worker.call))
    // The claim is the request's digest; a request that has none is declined.
    case TakeClaim(named) =>
      if !named then s.(worker := Answered(s.worker.call, DeclinedReply))
      else s.(worker := Claimed(s.worker.call), claims := s.claims + [s.worker.call])
    case AnswerUsage => s.(worker := Answered(s.worker.call, UsageReply))
    case CallHost => s.(worker := Answered(s.worker.call, AttemptedReply), executed := s.executed + [s.worker.call])
    // The thread and its queue are gone; the busy flag stays set.
    case HostPanics =>
      s.(worker := Dead, queue := [], executed := if s.worker.Claimed? then s.executed + [s.worker.call] else s.executed)
    case ClearBusy => s.(worker := Released(s.worker.call, s.worker.reply), busy := false)
    case SendReply => s.(worker := Idle, replies := s.replies[s.worker.call := s.worker.reply])
  }

  function Next(s: State, a: Action): State
    requires IsEnabled(s, a)
  {
    if IsWorkerStep(a) then NextOfWorker(s, a) else NextOfCaller(s, a)
  }

  // ---- What every step keeps ----

  /** The caller has sent its command, or gave up waiting for it. */
  predicate HasSent(s: State, c: CallId) {
    && c in s.calls && c in s.callers
    && (s.callers[c].IsPending() || (s.callers[c].Returned? && !s.callers[c].outcome.Declined?))
  }

  /** One call owns the busy flag while its command is being sent, queued or worked on. */
  predicate HolderIsInFlight(s: State) {
    && (forall c | c in s.callers && s.callers[c].BusyClaimed? ::
          s.busy && s.holder == Some(c) && s.queue == [] && !s.WorkerIsWorking())
    && |s.queue| <= 1
    && (s.queue != [] ==> s.busy && s.holder == Some(s.queue[0]) && !s.WorkerIsWorking() && !s.worker.Dead?)
    && (s.WorkerIsWorking() ==> s.busy && s.holder == Some(s.worker.call))
  }

  predicate RepliesAreHonest(s: State) {
    && (forall c | c in s.replies :: ReplyIsHonest(s, c, s.replies[c]))
    && (s.worker.Answered? || s.worker.Released? ==> ReplyIsHonest(s, s.worker.call, s.worker.reply) && s.worker.call !in s.replies)
  }

  /** A declined command took no claim; an attempted one reached the host. */
  predicate ReplyIsHonest(s: State, c: CallId, reply: Reply) {
    && c in s.calls && c !in s.queue
    && (reply.UsageReply? <==> s.calls[c].UsageCall?)
    && (reply.DeclinedReply? ==> c !in s.claims)
    && (reply.AttemptedReply? ==> c in s.executed)
  }

  predicate ClaimsPrecedeExecutions(s: State) {
    && (forall i, j | 0 <= i < j < |s.claims| :: s.claims[i] != s.claims[j])
    && (if s.worker.Claimed? then s.claims == s.executed + [s.worker.call] else s.claims == s.executed)
  }

  /** What the worker, the queue and the claims hold was sent by its caller. */
  predicate CommandsWereSent(s: State) {
    && (forall c | c in s.claims :: HasSent(s, c) && s.calls[c].ExecuteCall?)
    && (forall c | c in s.queue :: HasSent(s, c) && c !in s.claims && c !in s.replies)
    && (s.WorkerIsWorking() || s.worker.Released? ==>
          HasSent(s, s.worker.call) && s.worker.call !in s.queue && s.worker.call !in s.replies)
    && (s.worker.Received? || s.LockIsHeld() ==> s.worker.call !in s.claims)
    && (s.LockIsHeld() ==> s.calls[s.worker.call].ExecuteCall? && s.failure.None?)
  }

  /** What callers were told is true. */
  predicate CallersAreToldTheTruth(s: State) {
    && s.calls.Keys == s.callers.Keys
    && (forall c | c in s.callers && s.callers[c].Returned? && s.callers[c].outcome.Declined? :: c !in s.claims)
    && (forall c | c in s.callers && s.callers[c].Returned? && s.callers[c].outcome.Attempted? :: c in s.executed)
    && (forall c | c in s.replies :: c in s.callers && (s.callers[c].IsPending() || s.callers[c].Returned?))
    && (forall c | c in s.callers && (s.callers[c].GaveUp? || s.callers[c] == Returned(UnknownAttempt)) :: s.quarantined)
    && (forall c | c in s.callers && s.callers[c] == Returned(UsageReturned) :: s.calls[c].UsageCall?)
  }

  /** Whoever waited and has no reply is queued or being served, unless the worker is gone. */
  predicate WaitersAreServed(s: State) {
    forall c | c in s.callers && (s.callers[c].Waiting? || s.callers[c].Expired?) && c !in s.replies && !s.worker.Dead? ::
      c in s.queue || ((s.WorkerIsWorking() || s.worker.Released?) && s.worker.call == c)
  }

  predicate Inv(s: State) {
    HolderIsInFlight(s) && RepliesAreHonest(s) && ClaimsPrecedeExecutions(s) && CommandsWereSent(s) && CallersAreToldTheTruth(s)
    && WaitersAreServed(s)
  }

  /** What a step of the worker leaves alone, and how it extends the records. */
  lemma WorkerStepRecords(s: State, a: Action)
    requires IsEnabled(s, a) && IsWorkerStep(a)
    ensures var t := Next(s, a);
            && t.calls == s.calls && t.callers == s.callers && t.failure == s.failure
            && t.quarantined == s.quarantined && t.cancelled == s.cancelled
            && (t.claims == s.claims || (s.worker.ExpiryRead? && t.claims == s.claims + [s.worker.call]))
            && s.executed <= t.executed
            && (t.replies == s.replies || (s.worker.Released? && t.replies == s.replies[s.worker.call := s.worker.reply]))
  {
    hide NextOfCaller;
    match a
    case Receive =>
    case ReadFault =>
    case ReadCancellation =>
    case ReadExpiry(_) =>
    case TakeClaim(_) =>
    case AnswerUsage =>
    case CallHost =>
    case HostPanics =>
    case ClearBusy =>
    case SendReply =>
    case _ =>
  }

  lemma WorkerKeepsHolder(s: State, a: Action)
    requires Inv(s) && IsEnabled(s, a) && IsWorkerStep(a)
    ensures HolderIsInFlight(Next(s, a))
  {
    hide NextOfCaller;
    hide RepliesAreHonest, ClaimsPrecedeExecutions, CallersAreToldTheTruth, WaitersAreServed;
  }

  /** A caller that does not hold the busy flag is of no concern to it. */
  lemma OthersKeepHolder(s: State, t: State)
    requires HolderIsInFlight(s) && t.queue == s.queue && t.worker == s.worker && t.busy == s.busy && t.holder == s.holder
    requires forall c | c in t.callers && t.callers[c].BusyClaimed? :: c in s.callers && s.callers[c].BusyClaimed?
    ensures HolderIsInFlight(t)
  {
  }

  lemma ClaimBusyKeepsHolder(s: State, c: CallId)
    requires HolderIsInFlight(s) && IsEnabled(s, ClaimBusy(c))
    ensures HolderIsInFlight(NextOfCaller(s, ClaimBusy(c)))
  {
  }

  lemma SendKeepsHolder(s: State, c: CallId)
    requires HolderIsInFlight(s) && IsEnabled(s, Send(c))
    ensures HolderIsInFlight(NextOfCaller(s, Send(c)))
  {
  }

  lemma CallerKeepsHolder(s: State, a: Action)
    requires HolderIsInFlight(s) && IsEnabled(s, a) && !IsWorkerStep(a)
    ensures HolderIsInFlight(NextOfCaller(s, a))
  {
    hide HolderIsInFlight;
    if a.ClaimBusy? {
      ClaimBusyKeepsHolder(s, a.c);
    } else if a.Send? {
      SendKeepsHolder(s, a.c);
    } else {
      OthersKeepHolder(s, NextOfCaller(s, a));
    }
  }

  lemma WorkerKeepsReplies(s: State, a: Action)
    requires Inv(s) && IsEnabled(s, a) && IsWorkerStep(a)
    ensures RepliesAreHonest(Next(s, a))
  {
    hide NextOfCaller;
    hide HolderIsInFlight, CallersAreToldTheTruth, WaitersAreServed;
    match a
    case ReadFault =>
    case ReadCancellation =>
    case ReadExpiry(_) =>
    case TakeClaim(_) =>
    case SendReply =>
    case _ =>
  }

  /** The queue, the worker and the records are untouched. */
  predicate SameCommands(s: State, t: State) {
    && t.queue == s.queue && t.worker == s.worker && t.calls == s.calls && t.replies == s.replies
    && t.claims == s.claims && t.executed == s.executed && t.failure == s.failure
  }

  /** Nothing holds this call any more, or yet. */
  predicate IsDetached(s: State, c: CallId) {
    && c !in s.claims && c !in s.queue
    && (s.WorkerIsWorking() || s.worker.Released? ==> s.worker.call != c)
  }

  /** A call that was never sent is nowhere but with its caller. */
  lemma UnsentIsDetached(s: State, c: CallId)
    requires CommandsWereSent(s) && CallersAreToldTheTruth(s)
    requires c in s.callers && !s.callers[c].IsPending() && !s.callers[c].Returned?
    ensures IsDetached(s, c) && c !in s.replies && c in s.calls
  {
  }

  /** A call whose reply was sent is detached unless it took a claim. */
  lemma RepliedIsDetached(s: State, c: CallId)
    requires CommandsWereSent(s) && RepliesAreHonest(s) && c in s.replies
    ensures s.replies[c].DeclinedReply? ==> IsDetached(s, c)
    ensures s.replies[c].AttemptedReply? ==> c in s.executed
    ensures s.replies[c].UsageReply? ==> c in s.calls && s.calls[c].UsageCall?
  {
  }

  lemma MoveKeepsTruth(s: State, t: State, c: CallId, to: CallerState)
    requires CommandsWereSent(s) && CallersAreToldTheTruth(s) && RepliesAreHonest(s)
    requires SameCommands(s, t) && c in s.callers && t.callers == s.callers[c := to]
    requires s.quarantined ==> t.quarantined
    requires to.GaveUp? || to == Returned(UnknownAttempt) ==> t.quarantined
    requires to == Returned(UsageReturned) ==> c in s.calls && s.calls[c].UsageCall?
    requires IsDetached(s, c) || to.IsPending() || (to.Returned? && !to.outcome.Declined?)
    requires to.Returned? && to.outcome.Declined? ==> IsDetached(s, c)
    requires to.Returned? && to.outcome.Attempted? ==> c in s.executed
    requires c in s.replies ==> to.IsPending() || to.Returned?
    ensures CommandsWereSent(t) && CallersAreToldTheTruth(t) && RepliesAreHonest(t)
  {
  }

  lemma EnterKeepsTruth(s: State, c: CallId, call: Call)
    requires CommandsWereSent(s) && CallersAreToldTheTruth(s) && RepliesAreHonest(s) && c !in s.calls
    ensures var t := Next(s, Enter(c, call)); CommandsWereSent(t) && CallersAreToldTheTruth(t) && RepliesAreHonest(t)
  {
  }

  lemma SendKeepsCommands(s: State, c: CallId)
    requires CommandsWereSent(s) && CallersAreToldTheTruth(s) && IsEnabled(s, Send(c))
    ensures CommandsWereSent(s.Move(c, Waiting).(queue := s.queue + [c]))
  {
    UnsentIsDetached(s, c);
  }

  lemma SendKeepsReports(s: State, c: CallId)
    requires IsDetached(s, c) && CallersAreToldTheTruth(s) && IsEnabled(s, Send(c))
    ensures CallersAreToldTheTruth(s.Move(c, Waiting).(queue := s.queue + [c]))
  {
  }

  lemma SendKeepsReplies(s: State, c: CallId)
    requires IsDetached(s, c) && c !in s.replies && RepliesAreHonest(s) && IsEnabled(s, Send(c))
    ensures RepliesAreHonest(s.Move(c, Waiting).(queue := s.queue + [c]))
  {
  }

  lemma SendKeepsTruth(s: State, c: CallId)
    requires CommandsWereSent(s) && CallersAreToldTheTruth(s) && RepliesAreHonest(s) && IsEnabled(s, Send(c))
    ensures var t := s.Move(c, Waiting).(queue := s.queue + [c]); CommandsWereSent(t) && CallersAreToldTheTruth(t) && RepliesAreHonest(t)
  {
    SendKeepsCommands(s, c);
    UnsentIsDetached(s, c);
    hide CommandsWereSent, CallersAreToldTheTruth, RepliesAreHonest, IsDetached;
    SendKeepsReports(s, c);
    SendKeepsReplies(s, c);
  }

  /** A step of a call that has not been sent, and is not sent by this step. */
  predicate IsEarlyStep(s: State, a: Action, c: CallId) {
    || a == ReadQuarantine(c) || a == ReadCancelled(c) || a == MissDeadline(c) || a == ClaimBusy(c)
    || (a == Send(c) && (s.worker.Dead? || |s.queue| >= CHANNEL_CAPACITY))
  }

  lemma EarlyStepMoves(s: State, a: Action, c: CallId)
    requires IsEnabled(s, a) && IsEarlyStep(s, a, c)
    ensures c in s.callers && !s.callers[c].IsPending() && !s.callers[c].Returned? && Next(s, a).quarantined == s.quarantined
    ensures SameCommands(s, Next(s, a)) && c in Next(s, a).callers && Next(s, a).callers == s.callers[c := Next(s, a).callers[c]]
    ensures var to := Next(s, a).callers[c];
            && !to.GaveUp? && (to.Returned? ==> to.outcome.Declined? || (to.outcome.UsageReturned? && s.calls[c].UsageCall?))
  {
    hide NextOfWorker;
  }

  lemma EarlyStepKeepsTruth(s: State, a: Action, c: CallId)
    requires CommandsWereSent(s) && CallersAreToldTheTruth(s) && RepliesAreHonest(s)
    requires IsEnabled(s, a) && IsEarlyStep(s, a, c)
    ensures var t := Next(s, a); CommandsWereSent(t) && CallersAreToldTheTruth(t) && RepliesAreHonest(t)
  {
    hide CommandsWereSent, CallersAreToldTheTruth, RepliesAreHonest, IsDetached, SameCommands, IsEarlyStep, IsEnabled, Next;
    EarlyStepMoves(s, a, c);
    UnsentIsDetached(s, c);
    MoveKeepsTruth(s, Next(s, a), c, Next(s, a).callers[c]);
  }

  lemma ReturnKeepsTruth(s: State, c: CallId)
    requires CommandsWereSent(s) && CallersAreToldTheTruth(s) && RepliesAreHonest(s) && IsEnabled(s, ReturnReply(c))
    ensures var t := Next(s, ReturnReply(c)); CommandsWereSent(t) && CallersAreToldTheTruth(t) && RepliesAreHonest(t)
  {
    hide CommandsWereSent, CallersAreToldTheTruth, RepliesAreHonest, IsDetached;
    RepliedIsDetached(s, c);
    MoveKeepsTruth(s, Next(s, ReturnReply(c)), c, Returned(OutcomeOf(s.replies[c])));
  }

  lemma WaitFailureKeepsTruth(s: State, a: Action, c: CallId)
    requires CommandsWereSent(s) && CallersAreToldTheTruth(s) && RepliesAreHonest(s)
    requires IsEnabled(s, a) && (a == WaitExpires(c) || a == GiveUp(c) || a == CancelSession(c))
    ensures var t := Next(s, a); CommandsWereSent(t) && CallersAreToldTheTruth(t) && RepliesAreHonest(t)
  {
    hide CommandsWereSent, RepliesAreHonest, IsDetached;
    MoveKeepsTruth(s, Next(s, a), c, Next(s, a).callers[c]);
  }

  lemma CallerKeepsTruth(s: State, a: Action)
    requires CommandsWereSent(s) && CallersAreToldTheTruth(s) && RepliesAreHonest(s)
    requires IsEnabled(s, a) && !IsWorkerStep(a)
    ensures var t := Next(s, a); CommandsWereSent(t) && CallersAreToldTheTruth(t) && RepliesAreHonest(t)
  {
    hide NextOfWorker;
    hide CommandsWereSent, CallersAreToldTheTruth, RepliesAreHonest;
    if a.Enter? {
      EnterKeepsTruth(s, a.c, a.call);
    } else if a.ReturnReply? {
      ReturnKeepsTruth(s, a.c);
    } else if a.WaitExpires? || a.GiveUp? || a.CancelSession? {
      WaitFailureKeepsTruth(s, a, a.c);
    } else if a.RecordFault? || a.Cancel? {
      FlagsKeepTruth(s, Next(s, a));
    } else if IsEarlyStep(s, a, a.c) {
      EarlyStepKeepsTruth(s, a, a.c);
    } else {
      SendKeepsTruth(s, a.c);
    }
  }

  lemma FlagsKeepTruth(s: State, t: State)
    requires CommandsWereSent(s) && CallersAreToldTheTruth(s) && RepliesAreHonest(s)
    requires SameCommands(s, t.(failure := s.failure)) && t.callers == s.callers && (s.LockIsHeld() ==> t.failure == s.failure)
    requires t.quarantined == s.quarantined
    ensures CommandsWereSent(t) && CallersAreToldTheTruth(t) && RepliesAreHonest(t)
  {
  }

  lemma StepKeepsClaims(s: State, a: Action)
    requires Inv(s) && IsEnabled(s, a)
    ensures ClaimsPrecedeExecutions(Next(s, a))
  {
    hide HolderIsInFlight, RepliesAreHonest, CallersAreToldTheTruth, NextOfCaller;
    if !IsWorkerStep(a) {
      CallersLeaveRecords(s, a);
    }
  }

  /** The worker moves on with the same command; no record changes. */
  lemma WorkerMoveKeepsCommands(s: State, t: State)
    requires CommandsWereSent(s) && (s.WorkerIsWorking() || s.worker.Released?)
    requires t.queue == s.queue && t.calls == s.calls && t.callers == s.callers && t.replies == s.replies && t.claims == s.claims
    requires t.WorkerIsWorking() || t.worker.Released? ==> t.worker.call == s.worker.call
    requires t.worker.Received? || t.LockIsHeld() ==> s.worker.Received? || s.LockIsHeld()
    requires t.LockIsHeld() ==> t.failure.None? && t.calls[t.worker.call].ExecuteCall?
    ensures CommandsWereSent(t)
  {
  }

  lemma ReceiveKeepsCommands(s: State)
    requires CommandsWereSent(s) && HolderIsInFlight(s) && IsEnabled(s, Receive)
    ensures CommandsWereSent(Next(s, Receive))
  {
    assert s.queue == [s.queue[0]];
  }

  lemma TakeClaimKeepsCommands(s: State, named: bool)
    requires CommandsWereSent(s) && HolderIsInFlight(s) && IsEnabled(s, TakeClaim(named))
    ensures CommandsWereSent(Next(s, TakeClaim(named)))
  {
  }

  lemma SendReplyKeepsCommands(s: State)
    requires CommandsWereSent(s) && IsEnabled(s, SendReply)
    ensures CommandsWereSent(Next(s, SendReply))
  {
  }

  lemma PanicKeepsCommands(s: State)
    requires CommandsWereSent(s) && IsEnabled(s, HostPanics)
    ensures CommandsWereSent(Next(s, HostPanics))
  {
  }

  lemma WorkerKeepsCommands(s: State, a: Action)
    requires Inv(s) && IsEnabled(s, a) && IsWorkerStep(a)
    ensures CommandsWereSent(Next(s, a))
  {
    hide NextOfCaller;
    hide CallersAreToldTheTruth, RepliesAreHonest, ClaimsPrecedeExecutions, CommandsWereSent, HolderIsInFlight;
    if a.Receive? {
      ReceiveKeepsCommands(s);
    } else if a.TakeClaim? {
      TakeClaimKeepsCommands(s, a.named);
    } else if a.SendReply? {
      SendReplyKeepsCommands(s);
    } else if a.HostPanics? {
      PanicKeepsCommands(s);
    } else {
      if s.LockIsHeld() {
        LockedIsExecute(s);
      }
      WorkerMoveKeepsCommands(s, Next(s, a));
    }
  }

  lemma LockedIsExecute(s: State)
    requires CommandsWereSent(s) && s.LockIsHeld()
    ensures s.failure.None? && s.worker.call in s.calls && s.calls[s.worker.call].ExecuteCall?
  {
  }

  lemma WorkerKeepsCallers(s: State, a: Action)
    requires Inv(s) && IsEnabled(s, a) && IsWorkerStep(a)
    ensures CallersAreToldTheTruth(Next(s, a))
  {
    hide IsEnabled, Next, HolderIsInFlight, ClaimsPrecedeExecutions, WaitersAreServed, RepliesAreHonest;
    WorkerStepRecords(s, a);
    PrefixMembers(s.executed, Next(s, a).executed);
  }

  lemma WorkerKeepsWaiters(s: State, a: Action)
    requires Inv(s) && IsEnabled(s, a) && IsWorkerStep(a)
    ensures WaitersAreServed(Next(s, a))
  {
    hide NextOfCaller;
    hide RepliesAreHonest, ClaimsPrecedeExecutions, CommandsWereSent, CallersAreToldTheTruth;
    if a.Receive? {
      assert s.queue == [s.queue[0]];
    }
  }

  lemma CallerKeepsWaiters(s: State, a: Action)
    requires Inv(s) && IsEnabled(s, a) && !IsWorkerStep(a)
    ensures WaitersAreServed(Next(s, a))
  {
    hide NextOfWorker;
    hide HolderIsInFlight, RepliesAreHonest, ClaimsPrecedeExecutions, CommandsWereSent, CallersAreToldTheTruth;
  }

  lemma StepKeepsInv(s: State, a: Action)
    requires Inv(s) && IsEnabled(s, a)
    ensures Inv(Next(s, a))
  {
    hide HolderIsInFlight, RepliesAreHonest, ClaimsPrecedeExecutions, CommandsWereSent, CallersAreToldTheTruth, WaitersAreServed;
    StepKeepsClaims(s, a);
    if IsWorkerStep(a) {
      WorkerKeepsHolder(s, a);
      WorkerKeepsReplies(s, a);
      WorkerKeepsCommands(s, a);
      WorkerKeepsCallers(s, a);
      WorkerKeepsWaiters(s, a);
    } else {
      CallerKeepsHolder(s, a);
      CallerKeepsWaiters(s, a);
      CallerKeepsTruth(s, a);
    }
  }

  // ---- Whole runs ----

  /** A run in any interleaving: every state follows from the one before by an enabled step. */
  ghost predicate IsRun(states: seq<State>, actions: seq<Action>) {
    && |states| == |actions| + 1 && states[0] == INITIAL
    && forall i | 0 <= i < |actions| :: IsEnabled(states[i], actions[i]) && states[i + 1] == Next(states[i], actions[i])
  }

  lemma {:induction false} ReachableIsSound(states: seq<State>, actions: seq<Action>, i: nat)
    requires IsRun(states, actions) && i < |states|
    ensures Inv(states[i])
  {
    hide Inv, IsEnabled, Next;
    if i == 0 {
      InitialIsSound();
    } else {
      ReachableIsSound(states, actions, i - 1);
      StepKeepsInv(states[i - 1], actions[i - 1]);
    }
  }

  lemma InitialIsSound()
    ensures Inv(INITIAL)
  {
  }

  /** Callers and the session leave the worker's records alone. */
  lemma CallersLeaveRecords(s: State, a: Action)
    requires IsEnabled(s, a) && !IsWorkerStep(a)
    ensures Next(s, a).claims == s.claims && Next(s, a).executed == s.executed && Next(s, a).worker == s.worker
    ensures s.failure.Some? ==> Next(s, a).failure == s.failure
    ensures (s.quarantined ==> Next(s, a).quarantined) && (s.cancelled ==> Next(s, a).cancelled)
  {
    hide NextOfWorker;
    match a
    case Enter(_, _) =>
    case ReadQuarantine(_) =>
    case ReadCancelled(_) =>
    case MissDeadline(_) =>
    case ClaimBusy(_) =>
    case Send(_) =>
    case ReturnReply(_) =>
    case WaitExpires(_) =>
    case GiveUp(_) =>
    case CancelSession(_) =>
    case _ =>
  }

  /** Records only grow, and faults and quarantine stay. */
  lemma RecordsGrow(s: State, a: Action)
    requires IsEnabled(s, a)
    ensures s.claims <= Next(s, a).claims && s.executed <= Next(s, a).executed
    ensures s.failure.Some? ==> Next(s, a).failure == s.failure
    ensures (s.quarantined ==> Next(s, a).quarantined) && (s.cancelled ==> Next(s, a).cancelled)
  {
    hide NextOfCaller;
    if !IsWorkerStep(a) {
      CallersLeaveRecords(s, a);
    }
  }

  /** A caller that returned stays returned. */
  lemma ReturnedStays(s: State, a: Action, c: CallId)
    requires IsEnabled(s, a) && c in s.calls && c in s.callers && s.callers[c].Returned?
    ensures Next(s, a).CallerIs(c, s.callers[c])
  {
    if IsWorkerStep(a) {
      hide NextOfCaller;
    } else {
      hide NextOfWorker;
    }
  }

  lemma {:induction false} RunIsMonotone(states: seq<State>, actions: seq<Action>, i: nat, j: nat)
    requires IsRun(states, actions) && i <= j < |states|
    ensures states[i].claims <= states[j].claims && states[i].executed <= states[j].executed
    ensures states[i].failure.Some? ==> states[j].failure == states[i].failure
    ensures (states[i].quarantined ==> states[j].quarantined) && (states[i].cancelled ==> states[j].cancelled)
    decreases j
  {
    hide IsEnabled, Next;
    if i < j {
      RunIsMonotone(states, actions, i, j - 1);
      RecordsGrow(states[j - 1], actions[j - 1]);
    }
  }

  lemma {:induction false} ReturnedForGood(states: seq<State>, actions: seq<Action>, c: CallId, i: nat, j: nat)
    requires IsRun(states, actions) && i <= j < |states|
    requires c in states[i].calls && c in states[i].callers && states[i].callers[c].Returned?
    ensures states[j].CallerIs(c, states[i].callers[c])
    decreases j
  {
    hide IsEnabled, Next;
    if i < j {
      ReturnedForGood(states, actions, c, i, j - 1);
      ReturnedStays(states[j - 1], actions[j - 1], c);
    }
  }

  lemma PrefixMembers<T>(a: seq<T>, b: seq<T>)
    requires a <= b
    ensures forall x | x in a :: x in b
  {
  }

  /** A call reported as declined never reached the host's `execute`: not before the report and not after it. */
  lemma DeclinedNeverExecutes(states: seq<State>, actions: seq<Action>, c: CallId, i: nat, j: nat)
    requires IsRun(states, actions) && i < |states| && j < |states|
    requires states[i].CallerIs(c, Returned(Declined))
    ensures c !in states[j].executed && c !in states[j].claims
  {
    hide IsEnabled, Next;
    var last := if i <= j then j else i;
    ReachableIsSound(states, actions, last);
    ReturnedForGood(states, actions, c, i, last);
    RunIsMonotone(states, actions, j, last);
    PrefixMembers(states[j].executed, states[last].executed);
    PrefixMembers(states[j].claims, states[last].claims);
    ExecutedWereClaimed(states[last]);
  }

  lemma ExecutedWereClaimed(s: State)
    requires ClaimsPrecedeExecutions(s)
    ensures forall c | c in s.executed :: c in s.claims
  {
  }

  /** A call reported as attempted did reach it. */
  lemma AttemptedDidExecute(states: seq<State>, actions: seq<Action>, c: CallId, i: nat)
    requires IsRun(states, actions) && i < |states| && states[i].CallerIs(c, Returned(Attempted))
    ensures c in states[i].executed
  {
    ReachableIsSound(states, actions, i);
  }

  /** Every execution follows its own claim: claims are distinct, executions repeat them in order and lag by at most the one
      the worker holds. */
  lemma ExecutionsFollowClaims(states: seq<State>, actions: seq<Action>, i: nat)
    requires IsRun(states, actions) && i < |states|
    ensures states[i].executed <= states[i].claims && |states[i].claims| <= |states[i].executed| + 1
    ensures forall j, k | 0 <= j < k < |states[i].claims| :: states[i].claims[j] != states[i].claims[k]
    ensures forall k | 0 <= k < |states[i].executed| :: states[i].executed[k] in states[i].calls && states[i].calls[states[i].executed[k]].ExecuteCall?
  {
    ReachableIsSound(states, actions, i);
    assert forall k | 0 <= k < |states[i].executed| :: states[i].executed[k] in states[i].claims;
  }

  /** A worker that has come this far under the lock read the flags on its way: step `r` is the read behind it. */
  lemma {:induction false} ReadBefore(states: seq<State>, actions: seq<Action>, i: nat) returns (r: nat)
    requires IsRun(states, actions) && i < |states| && (states[i].worker.CancelRead? || states[i].worker.ExpiryRead?)
    ensures r < i
    ensures states[i].worker.CancelRead? ==>
              actions[r].ReadCancellation? && !states[r].cancelled && states[r].worker == FaultRead(states[i].worker.call)
    ensures states[i].worker.ExpiryRead? ==>
              actions[r].ReadExpiry? && !states[r].quarantined && states[r].worker == CancelRead(states[i].worker.call)
    ensures forall j | r < j <= i :: states[j].worker == states[i].worker
  {
    hide NextOfCaller;
    assert i > 0 && states[i] == Next(states[i - 1], actions[i - 1]);
    if !IsWorkerStep(actions[i - 1]) {
      CallersLeaveRecords(states[i - 1], actions[i - 1]);
      r := ReadBefore(states, actions, i - 1);
    } else {
      r := i - 1;
    }
  }

  /** Behind every claim stand three reads by the worker, in this order and for this call: no cancellation at `r`, no quarantine
      at `q`, and at `t`, where the claim is taken, no fault. The lock keeps faults out from before `r` until `t`. */
  lemma {:induction false} ClaimedWithoutFault(states: seq<State>, actions: seq<Action>, i: nat, k: nat) returns (r: nat, q: nat, t: nat)
    requires IsRun(states, actions) && i < |states| && k < |states[i].claims|
    ensures r < q < t < i
    ensures actions[r].ReadCancellation? && !states[r].cancelled && states[r].worker == FaultRead(states[i].claims[k])
    ensures actions[q].ReadExpiry? && !states[q].quarantined && states[q].worker == CancelRead(states[i].claims[k])
    ensures actions[t].TakeClaim? && |states[t].claims| == k && states[t + 1].claims == states[t].claims + [states[i].claims[k]]
    ensures forall j | r <= j <= t :: states[j].failure.None?
  {
    hide IsEnabled, Next;
    assert i > 0;
    ReachableIsSound(states, actions, i - 1);
    RecordsGrow(states[i - 1], actions[i - 1]);
    if k < |states[i - 1].claims| {
      r, q, t := ClaimedWithoutFault(states, actions, i - 1, k);
    } else {
      ClaimGrowth(states[i - 1], actions[i - 1]);
      t := i - 1;
      q := ReadBefore(states, actions, t);
      r := ReadBefore(states, actions, q);
      forall j | r <= j <= t ensures states[j].failure.None? {
        RunIsMonotone(states, actions, j, t);
      }
    }
  }

  lemma ClaimGrowth(s: State, a: Action)
    requires Inv(s) && IsEnabled(s, a) && Next(s, a).claims != s.claims
    ensures a.TakeClaim? && s.failure.None? && s.worker.ExpiryRead? && Next(s, a).claims == s.claims + [s.worker.call]
  {
    if !IsWorkerStep(a) {
      CallersLeaveRecords(s, a);
    }
    hide NextOfCaller;
    hide HolderIsInFlight, RepliesAreHonest, ClaimsPrecedeExecutions, CallersAreToldTheTruth, HasSent;
  }

  /** A recorded fault revokes everything that has not taken its claim: no claim is taken afterwards. */
  lemma {:induction false} FaultRevokes(states: seq<State>, actions: seq<Action>, i: nat, j: nat)
    requires IsRun(states, actions) && i <= j < |states| && states[i].failure.Some?
    ensures states[j].claims == states[i].claims && |states[j].executed| <= |states[i].claims|
    decreases j
  {
    hide IsEnabled, Next;
    ReachableIsSound(states, actions, j);
    if i < j {
      FaultRevokes(states, actions, i, j - 1);
      RunIsMonotone(states, actions, i, j - 1);
      ReachableIsSound(states, actions, j - 1);
      if states[j].claims != states[j - 1].claims {
        ClaimGrowth(states[j - 1], actions[j - 1]);
      }
    }
  }

  /** The call that may still take a claim although the port is quarantined, or the session cancelled: the worker read the
      flag for it before. */
  function Late(s: State): Option<CallId> {
    if s.worker.ExpiryRead? || (s.worker.CancelRead? && !s.quarantined) then Some(s.worker.call) else None
  }

  /** A step after a quarantine or a cancellation: a late call claims, is refused or stays late, and no other becomes late. */
  lemma LateStep(s: State, a: Action)
    requires Inv(s) && IsEnabled(s, a) && (s.quarantined || s.cancelled)
    ensures var t := Next(s, a);
            || (t.claims == s.claims && (Late(t) == Late(s) || Late(t) == None))
            || (Late(s).Some? && t.claims == s.claims + [Late(s).value] && Late(t) == None)
  {
    hide HolderIsInFlight, RepliesAreHonest, ClaimsPrecedeExecutions, CallersAreToldTheTruth, CommandsWereSent, WaitersAreServed;
    if IsWorkerStep(a) {
      hide NextOfCaller;
    } else {
      CallersLeaveRecords(s, a);
    }
  }

  /** After a quarantine or a cancellation no claim is taken, but for one by the call whose flag the worker had read before. */
  lemma {:induction false} FlagsRevoke(states: seq<State>, actions: seq<Action>, i: nat, j: nat)
    requires IsRun(states, actions) && i <= j < |states| && (states[i].quarantined || states[i].cancelled)
    ensures || (states[j].claims == states[i].claims && Late(states[j]) in {Late(states[i]), None})
            || (Late(states[i]).Some? && states[j].claims == states[i].claims + [Late(states[i]).value] && Late(states[j]) == None)
    decreases j
  {
    hide IsEnabled, Next, Late;
    if i < j {
      FlagsRevoke(states, actions, i, j - 1);
      RunIsMonotone(states, actions, i, j - 1);
      ReachableIsSound(states, actions, j - 1);
      LateStep(states[j - 1], actions[j - 1]);
    }
  }

  /** Exactly who can still claim when `c` quarantines the port: the call `d` for which the worker had read every flag. It is `c` itself, or
      the worker had served `c` and sent its reply, too late for `c`; it is `c` when no other call is under way. `d` is never told
      that it was declined, and when it is `c` it is told that its outcome is unknown. */
  lemma QuarantineRevokesOthers(states: seq<State>, actions: seq<Action>, i: nat, j: nat)
    requires IsRun(states, actions) && i < j < |states| && !states[i].quarantined && states[i + 1].quarantined
    ensures actions[i].GiveUp? && actions[i].c in states[i].calls
    ensures states[j].claims != states[i].claims ==>
              && states[i].worker.ExpiryRead?
              && var c, d := actions[i].c, states[i].worker.call;
              && states[j].claims == states[i].claims + [d]
              && (d == c || c in states[i].replies)
              && ((forall other | other in states[i].callers && !states[i].callers[other].Returned? :: other == c) ==> d == c)
              && !states[j].CallerIs(d, Returned(Declined))
              && (d == c ==> states[j].CallerIs(c, GaveUp) || states[j].CallerIs(c, Returned(UnknownAttempt)))
  {
    ReachableIsSound(states, actions, i);
    QuarantiningStep(states[i], actions[i]);
    FlagsRevoke(states, actions, i + 1, j);
    if states[j].claims != states[i].claims {
      var d := states[i].worker.call;
      if states[j].CallerIs(d, Returned(Declined)) {
        DeclinedNeverExecutes(states, actions, d, j, j);
      }
      if d == actions[i].c {
        GivenUpForGood(states, actions, d, i + 1, j);
      }
    }
  }

  /** Who can quarantine the port while the worker holds the lock. */
  lemma QuarantiningStep(s: State, a: Action)
    requires Inv(s) && IsEnabled(s, a) && !s.quarantined && Next(s, a).quarantined
    ensures a.GiveUp? && a.c in s.calls && Next(s, a).CallerIs(a.c, GaveUp)
    ensures Next(s, a).claims == s.claims && Next(s, a).worker == s.worker && Next(s, a).calls == s.calls
    ensures s.LockIsHeld() ==>
              && s.worker.call in s.calls && s.calls[s.worker.call].ExecuteCall?
              && (s.worker.call == a.c || a.c in s.replies)
              && s.worker.call in s.callers && !s.callers[s.worker.call].Returned?
  {
    QuarantineIsGivenUp(s, a);
    if s.LockIsHeld() {
      hide ClaimsPrecedeExecutions, RepliesAreHonest, IsEnabled, Next;
      ServedCallerIsUnderWay(s);
    }
  }

  lemma QuarantineIsGivenUp(s: State, a: Action)
    requires IsEnabled(s, a) && !s.quarantined && Next(s, a).quarantined
    ensures a.GiveUp? && s.CallerIs(a.c, Expired) && Next(s, a) == s.Move(a.c, GaveUp).(quarantined := true)
  {
    if IsWorkerStep(a) {
      hide IsEnabled, Next;
      WorkerStepRecords(s, a);
    } else {
      hide NextOfWorker;
    }
  }

  /** Under the lock and before any quarantine, the caller whose command is served has not returned. */
  lemma ServedCallerIsUnderWay(s: State)
    requires Inv(s) && s.LockIsHeld() && !s.quarantined
    ensures s.worker.call in s.callers && (s.callers[s.worker.call].Waiting? || s.callers[s.worker.call].Expired?)
  {
    hide HolderIsInFlight, WaitersAreServed, RepliesAreHonest;
    ExecutedWereClaimed(s);
  }

  /** Once the worker has read every flag for a call, any caller whose wait has expired can quarantine the port, and the worker can then
      claim that call. */
  lemma QuarantineCanComeTooLate(s: State, c: CallId)
    requires s.worker.ExpiryRead? && s.CallerIs(c, Expired)
    ensures IsEnabled(s, GiveUp(c))
    ensures var given := Next(s, GiveUp(c));
            && given.quarantined && IsEnabled(given, TakeClaim(true))
            && Next(given, TakeClaim(true)).claims == s.claims + [s.worker.call]
  {
  }

  // ---- A late claim of another call ----

  /** The run goes on to state `t`. */
  lemma Then(states: seq<State>, actions: seq<Action>, a: Action, t: State) returns (later: seq<State>, taken: seq<Action>)
    requires IsRun(states, actions) && IsEnabled(states[|states| - 1], a) && t == Next(states[|states| - 1], a)
    ensures IsRun(later, taken) && later == states + [t] && taken == actions + [a]
  {
    hide IsEnabled, Next;
    later, taken := states + [t], actions + [a];
  }

  /** The usage call 0 has been sent. */
  const USAGE_SENT := INITIAL.(
    calls := map[0 := UsageCall], callers := map[0 := Waiting], busy := true, holder := Some(0), queue := [0])

  /** It was served, and its reply came after its wait had expired. */
  const USAGE_EXPIRED := USAGE_SENT.(callers := map[0 := Expired], busy := false, queue := [], replies := map[0 := UsageReply])

  /** The execute call 1 has been sent after that. */
  const EXECUTE_SENT := USAGE_EXPIRED.(
    calls := map[0 := UsageCall, 1 := ExecuteCall("")], callers := map[0 := Expired, 1 := Waiting], busy := true, holder := Some(1), queue := [1])

  /** The worker has read every flag for call 1. */
  const FLAGS_READ := EXECUTE_SENT.(queue := [], worker := ExpiryRead(1))

  /** Call 0 quarantined the port, and the worker then claimed call 1 and called the host. */
  const EXECUTED_LATE := FLAGS_READ.(
    callers := map[0 := GaveUp, 1 := Waiting], quarantined := true, worker := Answered(1, AttemptedReply), claims := [1], executed := [1])

  const USAGE_ENTERED := INITIAL.(calls := map[0 := UsageCall], callers := map[0 := FlagsRead])

  lemma UsageEnters() returns (states: seq<State>, actions: seq<Action>)
    ensures IsRun(states, actions) && |actions| == 3 && states[3] == USAGE_ENTERED
  {
    hide NextOfWorker;
    states, actions := [INITIAL], [];
    states, actions := Then(states, actions, Enter(0, UsageCall), USAGE_ENTERED.Move(0, Entered));
    states, actions := Then(states, actions, ReadQuarantine(0), USAGE_ENTERED.Move(0, QuarantineRead));
    states, actions := Then(states, actions, ReadCancelled(0), USAGE_ENTERED);
  }

  lemma UsageIsSent() returns (states: seq<State>, actions: seq<Action>)
    ensures IsRun(states, actions) && |actions| == 5 && states[5] == USAGE_SENT
  {
    hide NextOfWorker, IsRun;
    states, actions := UsageEnters();
    RunIsLonger(states, actions);
    states, actions := Then(states, actions, ClaimBusy(0), USAGE_ENTERED.Move(0, BusyClaimed).(busy := true, holder := Some(0)));
    states, actions := Then(states, actions, Send(0), USAGE_SENT);
  }

  /** Call 0 was served, and the busy flag is free again. */
  const USAGE_SERVED := USAGE_SENT.(busy := false, queue := [], worker := Released(0, UsageReply))

  lemma UsageIsServed(states: seq<State>, actions: seq<Action>) returns (later: seq<State>, taken: seq<Action>)
    requires IsRun(states, actions) && |actions| == 5 && states[5] == USAGE_SENT
    ensures IsRun(later, taken) && |taken| == 8 && later[8] == USAGE_SERVED
  {
    hide IsRun, NextOfCaller;
    RunIsLonger(states, actions);
    var received := USAGE_SENT.(queue := [], worker := Received(0));
    later, taken := Then(states, actions, Receive, received);
    later, taken := Then(later, taken, AnswerUsage, received.(worker := Answered(0, UsageReply)));
    later, taken := Then(later, taken, ClearBusy, USAGE_SERVED);
  }

  lemma UsageExpires(states: seq<State>, actions: seq<Action>) returns (later: seq<State>, taken: seq<Action>)
    requires IsRun(states, actions) && |actions| == 8 && states[8] == USAGE_SERVED
    ensures IsRun(later, taken) && |taken| == 10 && later[10] == USAGE_EXPIRED
  {
    hide IsRun;
    RunIsLonger(states, actions);
    later, taken := Then(states, actions, WaitExpires(0), USAGE_SERVED.Move(0, Expired));
    later, taken := Then(later, taken, SendReply, USAGE_EXPIRED);
  }

  lemma RunIsLonger(states: seq<State>, actions: seq<Action>)
    requires IsRun(states, actions)
    ensures |states| == |actions| + 1
  {
  }

  /** Call 1 enters after that and finds no flag set. */
  const EXECUTE_ENTERED := USAGE_EXPIRED.(
    calls := map[0 := UsageCall, 1 := ExecuteCall("")], callers := map[0 := Expired, 1 := FlagsRead])

  lemma ExecuteEnters(states: seq<State>, actions: seq<Action>) returns (later: seq<State>, taken: seq<Action>)
    requires IsRun(states, actions) && |actions| == 10 && states[10] == USAGE_EXPIRED
    ensures IsRun(later, taken) && |taken| == 11 && later[11] == EXECUTE_ENTERED.Move(1, Entered)
  {
    hide IsRun, NextOfWorker;
    RunIsLonger(states, actions);
    later, taken := Then(states, actions, Enter(1, ExecuteCall("")), EXECUTE_ENTERED.Move(1, Entered));
  }

  lemma ExecuteReads(states: seq<State>, actions: seq<Action>) returns (later: seq<State>, taken: seq<Action>)
    requires IsRun(states, actions) && |actions| == 11 && states[11] == EXECUTE_ENTERED.Move(1, Entered)
    ensures IsRun(later, taken) && |taken| == 13 && later[13] == EXECUTE_ENTERED
  {
    hide IsRun, NextOfWorker;
    RunIsLonger(states, actions);
    later, taken := Then(states, actions, ReadQuarantine(1), EXECUTE_ENTERED.Move(1, QuarantineRead));
    later, taken := Then(later, taken, ReadCancelled(1), EXECUTE_ENTERED);
  }

  const EXECUTE_CLAIMED := EXECUTE_ENTERED.(
    callers := map[0 := Expired, 1 := BusyClaimed], busy := true, holder := Some(1))

  lemma ExecuteClaims(states: seq<State>, actions: seq<Action>) returns (later: seq<State>, taken: seq<Action>)
    requires IsRun(states, actions) && |actions| == 13 && states[13] == EXECUTE_ENTERED
    ensures IsRun(later, taken) && |taken| == 14 && later[14] == EXECUTE_CLAIMED
  {
    hide IsRun, NextOfWorker;
    RunIsLonger(states, actions);
    later, taken := Then(states, actions, ClaimBusy(1), EXECUTE_CLAIMED);
  }

  lemma ExecuteIsSent(states: seq<State>, actions: seq<Action>) returns (later: seq<State>, taken: seq<Action>)
    requires IsRun(states, actions) && |actions| == 14 && states[14] == EXECUTE_CLAIMED
    ensures IsRun(later, taken) && |taken| == 15 && later[15] == EXECUTE_SENT
  {
    hide IsRun, NextOfWorker;
    RunIsLonger(states, actions);
    later, taken := Then(states, actions, Send(1), EXECUTE_SENT);
  }

  lemma FlagsAreRead(states: seq<State>, actions: seq<Action>) returns (later: seq<State>, taken: seq<Action>)
    requires IsRun(states, actions) && |actions| == 15 && states[15] == EXECUTE_SENT
    ensures IsRun(later, taken) && |taken| == 19 && later[19] == FLAGS_READ
  {
    hide IsRun, NextOfCaller;
    RunIsLonger(states, actions);
    var received := EXECUTE_SENT.(queue := [], worker := Received(1));
    later, taken := Then(states, actions, Receive, received);
    later, taken := Then(later, taken, ReadFault, received.(worker := FaultRead(1)));
    later, taken := Then(later, taken, ReadCancellation, received.(worker := CancelRead(1)));
    later, taken := Then(later, taken, ReadExpiry(false), FLAGS_READ);
  }

  /** A run in which the caller of one call quarantines the port and another call is then claimed and executed. */
  lemma AnotherCallIsClaimedLate() returns (states: seq<State>, actions: seq<Action>)
    ensures IsRun(states, actions) && |actions| == 22
    ensures states[20].quarantined && states[20].CallerIs(0, GaveUp) && states[20].claims == []
    ensures states[22].executed == [1] && states[22].claims == [1] && states[22].worker == Answered(1, AttemptedReply)
  {
    hide IsRun;
    states, actions := UsageIsSent();
    states, actions := UsageIsServed(states, actions);
    states, actions := UsageExpires(states, actions);
    states, actions := ExecuteEnters(states, actions);
    states, actions := ExecuteReads(states, actions);
    states, actions := ExecuteClaims(states, actions);
    states, actions := ExecuteIsSent(states, actions);
    states, actions := FlagsAreRead(states, actions);
    RunIsLonger(states, actions);
    var given := FLAGS_READ.(callers := map[0 := GaveUp, 1 := Waiting], quarantined := true);
    states, actions := Then(states, actions, GiveUp(0), given);
    states, actions := Then(states, actions, TakeClaim(true), given.(worker := Claimed(1), claims := [1]));
    states, actions := Then(states, actions, CallHost, EXECUTED_LATE);
  }

  // ---- After giving up ----

  lemma {:induction false} GivenUpForGood(states: seq<State>, actions: seq<Action>, c: CallId, i: nat, j: nat)
    requires IsRun(states, actions) && i <= j < |states|
    requires states[i].CallerIs(c, GaveUp) && states[i].calls[c].ExecuteCall?
    ensures c in states[j].calls && states[j].calls[c].ExecuteCall?
    ensures states[j].CallerIs(c, GaveUp) || states[j].CallerIs(c, Returned(UnknownAttempt))
    decreases j
  {
    hide IsEnabled, Next;
    if i < j {
      GivenUpForGood(states, actions, c, i, j - 1);
      GivenUpStays(states[j - 1], actions[j - 1], c);
    }
  }

  lemma GivenUpStays(s: State, a: Action, c: CallId)
    requires IsEnabled(s, a) && c in s.calls && s.calls[c].ExecuteCall?
    requires s.CallerIs(c, GaveUp) || s.CallerIs(c, Returned(UnknownAttempt))
    ensures c in Next(s, a).calls && Next(s, a).calls[c] == s.calls[c]
    ensures Next(s, a).CallerIs(c, GaveUp) || Next(s, a).CallerIs(c, Returned(UnknownAttempt))
  {
    if IsWorkerStep(a) {
      hide IsEnabled, Next;
      WorkerStepRecords(s, a);
    } else {
      hide NextOfWorker;
    }
  }

  /** The commands that are between the busy flag and its release. */
  predicate IsInFlight(s: State, c: CallId) {
    s.CallerIs(c, BusyClaimed) || c in s.queue || (s.WorkerIsWorking() && s.worker.call == c)
  }

  /** At most one command is being sent, queued or running, and a send always finds room in the channel. */
  lemma OneCommandInFlight(states: seq<State>, actions: seq<Action>, i: nat, c: CallId, d: CallId)
    requires IsRun(states, actions) && i < |states| && IsInFlight(states[i], c)
    ensures IsInFlight(states[i], d) ==> c == d
    ensures states[i].busy
    ensures states[i].CallerIs(c, BusyClaimed) ==> |states[i].queue| < CHANNEL_CAPACITY
  {
    ReachableIsSound(states, actions, i);
  }
}

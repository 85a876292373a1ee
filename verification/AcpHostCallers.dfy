/** What the ACP host port's callers can rely on: when they are turned away, what they are told, and what is never executed. */
module AcpHostCallers {
  import opened AcpHostPort

  // ---- Calls that come too late ----

  /** The port turns such a call away: any call once it is quarantined, an execution once it is cancelled. */
  predicate IsShut(s: State, call: Call) {
    s.quarantined || (s.cancelled && call.ExecuteCall?)
  }

  /** The caller stands before the flag that turns it away, or has been turned away. */
  predicate IsKeptOut(s: State, c: CallId) {
    && c in s.calls && c in s.callers && c !in s.queue
    && match s.callers[c]
       case Entered => IsShut(s, s.calls[c])
       case QuarantineRead => s.cancelled && s.calls[c].ExecuteCall?
       case Returned(outcome) => outcome == if s.calls[c].UsageCall? then UsageReturned else Declined
       case _ => false
  }

  /** Nothing but its caller's own sending puts a command into the queue. */
  lemma QueueTakesSent(s: State, a: Action, c: CallId)
    requires IsEnabled(s, a) && c !in s.queue && a != Send(c)
    ensures c !in Next(s, a).queue
  {
    if IsWorkerStep(a) {
      hide NextOfCaller;
    } else {
      hide NextOfWorker;
    }
  }

  lemma OwnStepKeepsOut(s: State, a: Action, c: CallId)
    requires IsEnabled(s, a) && IsStepOf(a, c) && IsKeptOut(s, c)
    ensures IsKeptOut(Next(s, a), c) && a != Send(c)
  {
    hide NextOfWorker;
    match a
    case ReadQuarantine(_) =>
    case ReadCancelled(_) =>
    case _ =>
  }

  lemma KeptOutStays(s: State, a: Action, c: CallId)
    requires IsEnabled(s, a) && IsKeptOut(s, c)
    ensures IsKeptOut(Next(s, a), c)
  {
    hide IsEnabled, Next;
    if IsStepOf(a, c) {
      OwnStepKeepsOut(s, a, c);
    } else {
      QueueTakesSent(s, a, c);
      if IsWorkerStep(a) {
        WorkerStepRecords(s, a);
      } else {
        OthersLeaveCaller(s, a, c);
        CallersLeaveRecords(s, a);
      }
    }
  }

  /** A call that enters a port that is shut to it is never sent, claimed or executed; it is told so, if it is an execution. */
  lemma {:induction false} LateCallsAreKeptOut(states: seq<State>, actions: seq<Action>, c: CallId, call: Call, i: nat, j: nat)
    requires IsRun(states, actions) && i < j < |states|
    requires actions[i] == Enter(c, call) && IsShut(states[i], call)
    ensures IsKeptOut(states[j], c) && states[j].calls[c] == call
    ensures c !in states[j].queue && c !in states[j].claims && c !in states[j].executed
    decreases j
  {
    hide IsEnabled, Next;
    if j == i + 1 {
      ReachableIsSound(states, actions, i);
      EnteredIsKeptOut(states[i], c, call);
    } else {
      LateCallsAreKeptOut(states, actions, c, call, i, j - 1);
      KeptOutStays(states[j - 1], actions[j - 1], c);
      CallStays(states[j - 1], actions[j - 1], c);
    }
    ReachableIsSound(states, actions, j);
    KeptOutIsNotSent(states[j], c);
  }

  lemma EnteredIsKeptOut(s: State, c: CallId, call: Call)
    requires Inv(s) && IsEnabled(s, Enter(c, call)) && IsShut(s, call)
    ensures IsKeptOut(Next(s, Enter(c, call)), c) && Next(s, Enter(c, call)).calls[c] == call
  {
  }

  lemma CallStays(s: State, a: Action, c: CallId)
    requires IsEnabled(s, a) && c in s.calls
    ensures c in Next(s, a).calls && Next(s, a).calls[c] == s.calls[c]
  {
    if IsWorkerStep(a) {
      WorkerStepRecords(s, a);
    } else {
      hide NextOfWorker;
    }
  }

  lemma KeptOutIsNotSent(s: State, c: CallId)
    requires Inv(s) && IsKeptOut(s, c)
    ensures c !in s.claims && c !in s.executed
  {
    hide HolderIsInFlight, RepliesAreHonest, WaitersAreServed;
    ExecutedWereClaimed(s);
  }

  // ---- Replies that come in time ----

  /** The reply was there while its caller waited, and the caller takes it. */
  predicate TakesReply(s: State, c: CallId, reply: Reply) {
    && c in s.replies && s.replies[c] == reply && c in s.calls && c in s.callers
    && (s.callers[c].Waiting? || s.callers[c] == Returned(OutcomeOf(reply)))
  }

  lemma TakingStays(s: State, a: Action, c: CallId, reply: Reply)
    requires Inv(s) && IsEnabled(s, a) && TakesReply(s, c, reply)
    ensures TakesReply(Next(s, a), c, reply)
  {
    hide HolderIsInFlight, ClaimsPrecedeExecutions, CommandsWereSent, WaitersAreServed, CallersAreToldTheTruth, ReplyIsHonest;
    if IsWorkerStep(a) {
      WorkerStepRecords(s, a);
    } else {
      hide NextOfWorker;
    }
  }

  /** A caller that was still waiting when its reply came is told that reply and nothing else. */
  lemma {:induction false} RepliedInTimeIsTold(states: seq<State>, actions: seq<Action>, c: CallId, i: nat, j: nat)
    requires IsRun(states, actions) && i <= j < |states|
    requires states[i].CallerIs(c, Waiting) && c in states[i].replies
    ensures TakesReply(states[j], c, states[i].replies[c])
    decreases j
  {
    hide IsEnabled, Next, Inv;
    if i < j {
      RepliedInTimeIsTold(states, actions, c, i, j - 1);
      ReachableIsSound(states, actions, j - 1);
      TakingStays(states[j - 1], actions[j - 1], c, states[i].replies[c]);
    }
  }

  // ---- Who is told what ----

  /** A usage call is told usage and nothing else; whoever is told an unknown outcome has quarantined the port and cancelled the session. */
  predicate OutcomeFits(s: State, c: CallId) {
    && c in s.callers && c in s.calls
    && (s.callers[c].Returned? ==> (s.callers[c].outcome.UsageReturned? <==> s.calls[c].UsageCall?))
    && (s.callers[c] == Returned(UnknownAttempt) ==> s.cancelled && s.quarantined)
    && (s.callers[c].GaveUp? ==> s.quarantined)
  }

  predicate OutcomesFit(s: State) {
    forall c | c in s.callers :: OutcomeFits(s, c)
  }

  /** The step of a caller itself. */
  predicate IsStepOf(a: Action, c: CallId) {
    && !IsWorkerStep(a) && !a.RecordFault? && !a.Cancel?
    && a.c == c
  }

  lemma OthersLeaveCalls(s: State, a: Action, c: CallId)
    requires IsEnabled(s, a) && !IsWorkerStep(a) && !IsStepOf(a, c)
    ensures c in Next(s, a).calls <==> c in s.calls
    ensures c in s.calls ==> Next(s, a).calls[c] == s.calls[c]
  {
    hide NextOfWorker;
  }

  lemma OthersLeaveCallers(s: State, a: Action, c: CallId)
    requires IsEnabled(s, a) && !IsWorkerStep(a) && !IsStepOf(a, c)
    ensures c in Next(s, a).callers <==> c in s.callers
    ensures c in s.callers ==> Next(s, a).callers[c] == s.callers[c]
  {
    hide NextOfWorker;
    match a
    case Enter(_, _) =>
    case ReadQuarantine(_) =>
    case ReadCancelled(_) =>
    case MissDeadline(_) =>
    case ClaimBusy(_) =>
    case Send(_) =>
    case ReturnReply(_) =>
    case WaitExpires(_) =>
    case GiveUp(_) =>
    case CancelSession(_) =>
    case _ =>
  }

  /** A step of another caller, or of the session, leaves a caller and its call alone. */
  lemma OthersLeaveCaller(s: State, a: Action, c: CallId)
    requires IsEnabled(s, a) && !IsWorkerStep(a) && !IsStepOf(a, c)
    ensures c in Next(s, a).callers <==> c in s.callers
    ensures c in Next(s, a).calls <==> c in s.calls
    ensures c in s.callers ==> Next(s, a).callers[c] == s.callers[c]
    ensures c in s.calls ==> Next(s, a).calls[c] == s.calls[c]
  {
    hide IsEnabled, Next;
    OthersLeaveCalls(s, a, c);
    OthersLeaveCallers(s, a, c);
  }

  lemma OwnStepFits(s: State, a: Action, c: CallId)
    requires RepliesAreHonest(s) && IsEnabled(s, a) && IsStepOf(a, c)
    requires c in s.callers ==> OutcomeFits(s, c)
    ensures OutcomeFits(Next(s, a), c)
  {
    hide NextOfWorker;
    match a
    case Enter(_, _) =>
    case ReadQuarantine(_) =>
    case ReadCancelled(_) =>
    case MissDeadline(_) =>
    case ClaimBusy(_) =>
    case Send(_) =>
    case ReturnReply(_) =>
    case WaitExpires(_) =>
    case GiveUp(_) =>
    case CancelSession(_) =>
    case _ =>
  }

  lemma OutcomeStaysFit(s: State, a: Action, c: CallId)
    requires RepliesAreHonest(s) && IsEnabled(s, a) && !IsWorkerStep(a)
    requires c in s.callers ==> OutcomeFits(s, c)
    ensures c in Next(s, a).callers ==> OutcomeFits(Next(s, a), c)
  {
    hide RepliesAreHonest, IsEnabled, Next, IsStepOf;
    if IsStepOf(a, c) {
      OwnStepFits(s, a, c);
    } else {
      OthersLeaveCaller(s, a, c);
      CallersLeaveRecords(s, a);
    }
  }

  lemma OutcomesStayFit(s: State, a: Action)
    requires Inv(s) && OutcomesFit(s) && IsEnabled(s, a)
    ensures OutcomesFit(Next(s, a))
  {
    hide IsEnabled, Next, OutcomeFits, HolderIsInFlight, ClaimsPrecedeExecutions, CommandsWereSent, WaitersAreServed, CallersAreToldTheTruth, RepliesAreHonest;
    forall c | c in Next(s, a).callers ensures OutcomeFits(Next(s, a), c) {
      if IsWorkerStep(a) {
        WorkerStepRecords(s, a);
        SameCallerFits(s, Next(s, a), c);
      } else {
        OutcomeStaysFit(s, a, c);
      }
    }
  }

  lemma SameCallerFits(s: State, t: State, c: CallId)
    requires OutcomeFits(s, c) && t.calls == s.calls && t.callers == s.callers && t.quarantined == s.quarantined && t.cancelled == s.cancelled
    ensures OutcomeFits(t, c)
  {
  }

  lemma {:induction false} CallersAreToldTheirKind(states: seq<State>, actions: seq<Action>, i: nat)
    requires IsRun(states, actions) && i < |states|
    ensures OutcomesFit(states[i])
  {
    hide Inv, IsEnabled, Next;
    if i > 0 {
      CallersAreToldTheirKind(states, actions, i - 1);
      ReachableIsSound(states, actions, i - 1);
      OutcomesStayFit(states[i - 1], actions[i - 1]);
    }
  }

  /** What turns a call away that was not sent: a flag that is set for it, its deadline, a busy port, or a channel that cannot take it. */
  predicate TurnsAway(s: State, a: Action, c: CallId)
    requires c in s.calls
  {
    || (a == ReadQuarantine(c) && s.quarantined)
    || (a == ReadCancelled(c) && s.cancelled && s.calls[c].ExecuteCall?)
    || a == MissDeadline(c)
    || (a == ClaimBusy(c) && s.busy)
    || (a == Send(c) && (s.worker.Dead? || |s.queue| >= 1))
  }

  lemma OwnStepTurnsAway(s: State, a: Action, c: CallId)
    requires IsEnabled(s, a) && IsStepOf(a, c) && c in s.calls && c in s.callers && !s.callers[c].IsPending() && !s.callers[c].Returned?
    ensures c in Next(s, a).callers && (Next(s, a).callers[c].Returned? <==> TurnsAway(s, a, c))
  {
    hide NextOfWorker;
    match a
    case ReadQuarantine(_) =>
    case ReadCancelled(_) =>
    case MissDeadline(_) =>
    case ClaimBusy(_) =>
    case Send(_) =>
    case _ =>
  }

  /** A call that was not sent is turned away exactly so; cancellation alone turns no usage call away. */
  lemma TurnedAwayExactly(s: State, a: Action, c: CallId)
    requires Inv(s) && IsEnabled(s, a) && c in s.callers && !s.callers[c].IsPending() && !s.callers[c].Returned?
    ensures c in s.calls && c in Next(s, a).callers && (Next(s, a).callers[c].Returned? <==> TurnsAway(s, a, c))
  {
    hide *;
    CallerIsKnown(s, c);
    if IsStepOf(a, c) {
      OwnStepTurnsAway(s, a, c);
    } else {
      OthersTurnNothingAway(s, a, c);
    }
  }

  lemma OthersTurnNothingAway(s: State, a: Action, c: CallId)
    requires IsEnabled(s, a) && !IsStepOf(a, c) && c in s.calls && c in s.callers
    ensures !TurnsAway(s, a, c) && c in Next(s, a).callers && Next(s, a).callers[c] == s.callers[c]
  {
    hide IsEnabled, Next;
    if IsWorkerStep(a) {
      WorkerStepRecords(s, a);
    } else {
      OthersLeaveCaller(s, a, c);
    }
  }

  lemma CallerIsKnown(s: State, c: CallId)
    requires Inv(s) && c in s.callers
    ensures c in s.calls
  {
    hide HolderIsInFlight, RepliesAreHonest, ClaimsPrecedeExecutions, CommandsWereSent, WaitersAreServed;
  }

  /** Giving up quarantines for good, and cancelling cancels for good. */
  lemma FlagsAreSetForGood(states: seq<State>, actions: seq<Action>, i: nat, j: nat)
    requires IsRun(states, actions) && i < j < |states|
    ensures actions[i].GiveUp? ==> states[j].quarantined
    ensures actions[i].Cancel? || actions[i].CancelSession? ==> states[j].cancelled
  {
    hide NextOfWorker;
    assert states[i + 1] == Next(states[i], actions[i]);
    RunIsMonotone(states, actions, i + 1, j);
  }

  // ---- Commands that the worker declines ----

  predicate IsRefused(s: State, c: CallId) {
    || ((s.worker.Answered? || s.worker.Released?) && s.worker.call == c && s.worker.reply == DeclinedReply)
    || (c in s.replies && s.replies[c] == DeclinedReply)
  }

  lemma RefusedStays(s: State, a: Action, c: CallId)
    requires Inv(s) && IsEnabled(s, a) && IsRefused(s, c)
    ensures IsRefused(Next(s, a), c)
  {
    hide HolderIsInFlight, ClaimsPrecedeExecutions, CommandsWereSent, WaitersAreServed, CallersAreToldTheTruth, ReplyIsHonest;
    if !IsWorkerStep(a) {
      CallersLeaveRecords(s, a);
      CallersLeaveReplies(s, a);
    }
  }

  lemma CallersLeaveReplies(s: State, a: Action)
    requires IsEnabled(s, a) && !IsWorkerStep(a)
    ensures Next(s, a).replies == s.replies
  {
    hide NextOfWorker;
  }

  /** A command whose deadline has passed when the worker reads it, or whose request has no digest, is never claimed. */
  lemma {:induction false} RefusedIsNeverClaimed(states: seq<State>, actions: seq<Action>, i: nat, j: nat)
    requires IsRun(states, actions) && i < j < |states|
    requires actions[i] == ReadExpiry(true) || actions[i] == TakeClaim(false)
    ensures states[i].worker.call !in states[j].claims && states[i].worker.call !in states[j].executed
    ensures IsRefused(states[j], states[i].worker.call)
    decreases j
  {
    var c := states[i].worker.call;
    hide Inv, IsEnabled, Next;
    if j == i + 1 {
      WorkerRefuses(states[i], actions[i]);
    } else {
      RefusedIsNeverClaimed(states, actions, i, j - 1);
      ReachableIsSound(states, actions, j - 1);
      RefusedStays(states[j - 1], actions[j - 1], c);
    }
    ReachableIsSound(states, actions, j);
    RefusedIsNotClaimed(states[j], c);
  }

  lemma WorkerRefuses(s: State, a: Action)
    requires IsEnabled(s, a) && (a == ReadExpiry(true) || a == TakeClaim(false))
    ensures IsRefused(Next(s, a), s.worker.call)
  {
    hide NextOfCaller;
  }

  lemma RefusedIsNotClaimed(s: State, c: CallId)
    requires Inv(s) && IsRefused(s, c)
    ensures c !in s.claims && c !in s.executed
  {
    ExecutedWereClaimed(s);
    hide HolderIsInFlight, ClaimsPrecedeExecutions, CommandsWereSent, WaitersAreServed, CallersAreToldTheTruth;
  }
}

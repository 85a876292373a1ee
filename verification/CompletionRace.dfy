/** The compare-and-swap between host cancellation and the completion claim of an ACP session. */
module CompletionRace {
  import opened Text
  import opened Contracts
  import opened RuntimeModel
  import opened EffectSteps
  import RunEngine

  datatype SessionOutcome = Active | Cancelled | CompletionClaimed

  /** The atomic operations on the shared outcome, in the one order that sequential consistency gives them. A cancel is one
      swap; a completion claim is a swap and a later load; an observation of cancellation is a load. */
  datatype AtomicOp = CancelSwap | ClaimSwap | Load

  function Apply(outcome: SessionOutcome, op: AtomicOp): SessionOutcome {
    match op
    case CancelSwap => if outcome == Active then Cancelled else outcome
    case ClaimSwap => if outcome == Active then CompletionClaimed else outcome
    case Load => outcome
  }

  /** The outcome after a history of operations by any number of threads. */
  function After(history: seq<AtomicOp>): SessionOutcome {
    if history == [] then Active else Apply(After(history[..|history| - 1]), history[|history| - 1])
  }

  /** What operation `i` sees: a load that sees `Cancelled` reports a cancellation. */
  function SeenBy(history: seq<AtomicOp>, i: nat): SessionOutcome
    requires i < |history|
  {
    After(history[..i])
  }

  predicate SwapWins(history: seq<AtomicOp>, i: nat)
    requires i < |history|
  {
    !history[i].Load? && SeenBy(history, i) == Active
  }

  /** Once decided, the outcome never changes. */
  lemma {:induction false} DecisionIsFinal(history: seq<AtomicOp>, i: nat, k: nat)
    requires i <= k <= |history| && After(history[..i]) != Active
    ensures After(history[..k]) == After(history[..i])
    decreases k
  {
    if i < k {
      DecisionIsFinal(history, i, k - 1);
      assert history[..k][..k - 1] == history[..k - 1];
    }
  }

  lemma SwapDecides(history: seq<AtomicOp>, i: nat)
    requires i < |history| && !history[i].Load?
    ensures After(history[..i + 1]) != Active
    ensures SwapWins(history, i) ==> After(history[..i + 1]) == if history[i].CancelSwap? then Cancelled else CompletionClaimed
    ensures !SwapWins(history, i) ==> After(history[..i + 1]) == SeenBy(history, i)
  {
    assert history[..i + 1][..i] == history[..i];
  }

  /** At most one swap wins, whatever the interleaving. */
  lemma OneWinner(history: seq<AtomicOp>, i: nat, j: nat)
    requires i < j < |history| && SwapWins(history, i)
    ensures !SwapWins(history, j)
  {
    SwapDecides(history, i);
    DecisionIsFinal(history, i + 1, j);
  }

  /** A claim whose load reports no cancellation has decided the session: no cancel wins before or after it, and no load
      after the claim's swap ever reports a cancellation. */
  lemma WonClaimIsFinal(history: seq<AtomicOp>, swap: nat, load: nat)
    requires swap < load < |history| && history[swap].ClaimSwap? && history[load].Load?
    requires SeenBy(history, load) != Cancelled
    ensures forall k | swap < k <= |history| :: After(history[..k]) == CompletionClaimed
    ensures forall k | 0 <= k < |history| && history[k].CancelSwap? :: !SwapWins(history, k)
  {
    SwapDecides(history, swap);
    forall k | swap < k <= |history| ensures After(history[..k]) == CompletionClaimed {
      DecisionIsFinal(history, swap + 1, k);
      DecisionIsFinal(history, swap + 1, load);
      DecidedIsEither(After(history[..swap + 1]));
    }
    forall k | 0 <= k < |history| && history[k].CancelSwap? ensures !SwapWins(history, k) {
      if SwapWins(history, k) {
        SwapDecides(history, k);
        DecisionIsFinal(history, k + 1, |history|);
      }
    }
  }

  /** A claim whose load reports a cancellation lost to a cancel that every later load reports as well. */
  lemma LostClaimIsFinal(history: seq<AtomicOp>, swap: nat, load: nat)
    requires swap < load < |history| && history[swap].ClaimSwap? && history[load].Load?
    requires SeenBy(history, load) == Cancelled
    ensures !SwapWins(history, swap)
    ensures exists k | 0 <= k < swap :: history[k].CancelSwap? && SwapWins(history, k)
    ensures forall k | load <= k <= |history| :: After(history[..k]) == Cancelled
  {
    SwapDecides(history, swap);
    DecisionIsFinal(history, swap + 1, load);
    var winner := CancelWon(history, swap);
    forall k | load <= k <= |history| ensures After(history[..k]) == Cancelled {
      DecisionIsFinal(history, load, k);
    }
  }

  lemma DecidedIsEither(outcome: SessionOutcome)
    requires outcome != Active
    ensures outcome == Cancelled || outcome == CompletionClaimed
  {
    match outcome
    case Cancelled =>
    case CompletionClaimed =>
  }

  /** A cancelled outcome was decided by a cancel that won. */
  lemma {:induction false} CancelWon(history: seq<AtomicOp>, n: nat) returns (k: nat)
    requires n <= |history| && After(history[..n]) == Cancelled
    ensures k < n && history[k].CancelSwap? && SwapWins(history, k)
  {
    assert history[..n][..n - 1] == history[..n - 1];
    if After(history[..n - 1]) == Cancelled {
      k := CancelWon(history, n - 1);
    } else {
      k := n - 1;
    }
  }

  // ---- The engine's claims ----

  /** A port's completion claim: the swap and the load that it makes, and what it answers. */
  datatype ClaimTrace = ClaimTrace(swap: nat, load: nat, answer: Result<Option<Cancellation>, PortError>)
  {
    /** The answer is a cancellation exactly when the load sees one; a claim of this session never fails. */
    predicate AnswersFrom(history: seq<AtomicOp>) {
      && swap < load < |history| && history[swap].ClaimSwap? && history[load].Load?
      && answer.Success? && (answer.value.Some? <==> SeenBy(history, load) == Cancelled)
    }
  }

  /** In a completed run whose ports share one session, a claim has won the swap, whatever else any number of threads did:
      no cancel wins, and nothing that looks after the first claim's swap ever sees a cancellation. */
  lemma CompletedRunWonTheRace(
    engine: RunEngine.AgentRunEngine, run: AgentRunRequest, x: RunEngine.Execution, steps: seq<EffectStep>, final: Subject,
    history: seq<AtomicOp>, agent: ClaimTrace, executor: ClaimTrace)
    requires engine.CompletedRun(run, x, steps, final)
    requires agent.AnswersFrom(history) && agent.answer == engine.script.agentClaim
    requires executor.AnswersFrom(history) && executor.answer == engine.script.executorClaim
    ensures exists k | 0 <= k <= agent.swap :: history[k].ClaimSwap? && SwapWins(history, k)
    ensures forall k | 0 <= k < |history| && history[k].CancelSwap? :: !SwapWins(history, k)
    ensures forall k | agent.swap < k < |history| && history[k].Load? :: SeenBy(history, k) != Cancelled
  {
    hide CompletedLedger;
    WonClaimIsFinal(history, agent.swap, agent.load);
    var k := ClaimWon(history, agent.swap + 1);
  }

  /** A run in which a cancel wins is not completed: one of the two claims reports it. */
  lemma CancelledRunIsNotCompleted(
    engine: RunEngine.AgentRunEngine, run: AgentRunRequest, x: RunEngine.Execution, steps: seq<EffectStep>, final: Subject,
    history: seq<AtomicOp>, agent: ClaimTrace, executor: ClaimTrace, k: nat)
    requires agent.AnswersFrom(history) && agent.answer == engine.script.agentClaim
    requires executor.AnswersFrom(history) && executor.answer == engine.script.executorClaim
    requires k < |history| && history[k].CancelSwap? && SwapWins(history, k)
    ensures !engine.CompletedRun(run, x, steps, final)
  {
    if engine.CompletedRun(run, x, steps, final) {
      CompletedRunWonTheRace(engine, run, x, steps, final, history, agent, executor);
    }
  }

  /** A claimed outcome was decided by a claim that won. */
  lemma {:induction false} ClaimWon(history: seq<AtomicOp>, n: nat) returns (k: nat)
    requires n <= |history| && After(history[..n]) == CompletionClaimed
    ensures k < n && history[k].ClaimSwap? && SwapWins(history, k)
  {
    assert history[..n][..n - 1] == history[..n - 1];
    if After(history[..n - 1]) == CompletionClaimed {
      k := ClaimWon(history, n - 1);
    } else {
      k := n - 1;
    }
  }
}

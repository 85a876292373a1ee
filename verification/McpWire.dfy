/** The MCP dispatch boundary: one wire state under a lock, shared by the session, the frame writers and the reader. */
module McpWire {
  import opened Text

  const MAX_U64: nat := 0xFFFF_FFFF_FFFF_FFFF

  /** A `tools/call` frame that a sender task writes in pieces. */
  datatype Frame = Frame(call: nat, length: nat, written: nat)

  /** Where the session stands. Calls are numbered in the order they begin. The failure and the generation are read under separate
      locks, in `Starting` and in `Answered`; the failure is read again between `Discovered` and `Cleared`; between `Recorded` and the report the session reads whether a call byte was
      written. */
  datatype Session =
    | Ready
    | Starting
    | Discovering(from: nat)
    | Discovered(generation: nat)
    | Cleared(generation: nat)
    | Calling(call: nat, generation: nat)
    | Answered(call: nat, generation: nat)
    | Ended(call: nat)
    | Recorded(call: nat)
  {
    predicate HasCall() {
      Calling? || Answered? || Ended? || Recorded?
    }
  }

  /** One successful nonblocking write of bytes of a call frame. */
  datatype Write = Write(call: nat, size: nat, generation: nat)

  datatype State = State(
    failure: Option<string>,
    generation: nat,
    callGeneration: Option<nat>,
    callStarted: bool,
    session: Session,
    callsBegun: nat,
    frames: seq<Frame>,
    writes: seq<Write>,
    /** What each finished call was reported as: dispatched or not. */
    reports: map<nat, bool>)

  const INITIAL := State(None, 0, None, false, Ready, 0, [], [], map[])

  datatype Action =
    | Fail(code: string)
    | NotifyListChanged
    | StartDiscovery
    | ReadGeneration
    | FinishDiscovery
    | AbandonDiscovery
    | ClearCall
    | BeginCall
    | QueueFrame(call: nat, length: nat)
    | PollWrite(frame: nat, size: nat)
    | FindHealthy
    | AcceptResponse
    | EndWithError
    | RecordError(code: string)
    | ReportStarted

  predicate IsEnabled(s: State, a: Action) {
    match a
    case Fail(_) => true
    case NotifyListChanged => true
    case StartDiscovery => s.session.Ready? && s.failure.None?
    case ReadGeneration => s.session.Starting?
    case FinishDiscovery => s.session.Discovering?
    case AbandonDiscovery => s.session.Starting? || s.session.Discovering? || s.session.Discovered? || s.session.Cleared?
    case ClearCall => s.session.Discovered? && s.failure.None?
    case BeginCall => s.session.Cleared?
    // A call's frame can only be queued once the call has begun.
    case QueueFrame(call, _) => call < s.callsBegun
    case PollWrite(frame, size) => frame < |s.frames| && size <= s.frames[frame].length - s.frames[frame].written
    case FindHealthy => s.session.Calling? && s.failure.None?
    case AcceptResponse => s.session.Answered? && s.generation == s.session.generation
    case EndWithError => s.session.Calling? || s.session.Answered?
    case RecordError(_) => s.session.Ended?
    case ReportStarted => s.session.Recorded?
  }

  function WithFailure(s: State, code: string): State {
    if s.failure.None? then s.(failure := Some(code)) else s
  }

  /** One poll under the lock: refused after a failure, a failure itself after drift, and otherwise a write of `size` bytes. */
  function Poll(s: State, frame: nat, size: nat): State
    requires frame < |s.frames|
  {
    var f := s.frames[frame];
    if s.failure.Some? then s
    else if s.callGeneration != Some(s.generation) then s.(failure := Some("mcp.capability_drift"))
    else if size == 0 then s
    else
      s.(callStarted := true, frames := s.frames[frame := f.(written := f.written + size)],
         writes := s.writes + [Write(f.call, size, s.generation)])
  }

  function Next(s: State, a: Action): State
    requires IsEnabled(s, a)
  {
    match a
    case Fail(code) => WithFailure(s, code)
    // An exhausted counter does not wrap around; the reader records the failure in a later step.
    case NotifyListChanged => if s.generation == MAX_U64 then s else s.(generation := s.generation + 1)
    case StartDiscovery => s.(session := Starting)
    case ReadGeneration => s.(session := Discovering(s.generation))
    case FinishDiscovery => s.(session := if s.generation == s.session.from then Discovered(s.session.from) else Ready)
    case AbandonDiscovery => s.(session := Ready)
    case ClearCall => s.(session := Cleared(s.session.generation))
    case BeginCall =>
      s.(session := Calling(s.callsBegun, s.session.generation), callsBegun := s.callsBegun + 1,
         callGeneration := Some(s.session.generation), callStarted := false)
    case QueueFrame(call, length) => s.(frames := s.frames + [Frame(call, length, 0)])
    case PollWrite(frame, size) => Poll(s, frame, size)
    case FindHealthy => s.(session := Answered(s.session.call, s.session.generation))
    case AcceptResponse => s.(session := Ready, reports := s.reports[s.session.call := true])
    case EndWithError => s.(session := Ended(s.session.call))
    case RecordError(code) => WithFailure(s, code).(session := Recorded(s.session.call))
    case ReportStarted => s.(session := Ready, reports := s.reports[s.session.call := s.callStarted])
  }

  predicate HasWritten(s: State, call: nat) {
    exists w | w in s.writes :: w.call == call
  }

  /** The call whose outcome the session has not reported yet. */
  predicate IsCurrent(s: State, call: nat) {
    s.session.HasCall() && s.session.call == call
  }

  // ---- What every step keeps ----

  predicate Inv(s: State) {
    && (forall f | f in s.frames :: f.call < s.callsBegun && f.written <= f.length)
    && (forall w | w in s.writes :: w.call < s.callsBegun && w.size > 0)
    && (forall c | c in s.reports :: c < s.callsBegun && !IsCurrent(s, c))
    && (s.session.HasCall() ==> s.session.call + 1 == s.callsBegun)
    && (s.session.Calling? || s.session.Answered? ==> s.callGeneration == Some(s.session.generation))
    && (s.session.Recorded? ==> s.failure.Some?)
    && (s.session.HasCall() && HasWritten(s, s.session.call) ==> s.callStarted)
    && (forall c | c in s.reports && !s.reports[c] :: s.failure.Some? && !HasWritten(s, c))
  }

  lemma StepKeepsInv(s: State, a: Action)
    requires Inv(s) && IsEnabled(s, a)
    ensures Inv(Next(s, a))
  {
    if a.PollWrite? {
      PollKeepsInv(s, a.frame, a.size);
    } else {
      var t := Next(s, a);
      assert t.writes == s.writes;
      assert forall c :: HasWritten(t, c) <==> HasWritten(s, c);
    }
  }

  lemma PollKeepsInv(s: State, frame: nat, size: nat)
    requires Inv(s) && frame < |s.frames| && size <= s.frames[frame].length - s.frames[frame].written
    ensures Inv(Poll(s, frame, size))
  {
    var t, f := Poll(s, frame, size), s.frames[frame];
    assert f in s.frames;
    if t.writes != s.writes {
      assert forall w :: w in t.writes <==> w in s.writes || w == Write(f.call, size, s.generation);
      assert forall g | g in t.frames :: g in s.frames || g == f.(written := f.written + size);
      assert forall c | HasWritten(t, c) :: c == f.call || HasWritten(s, c);
    }
  }

  // ---- Whole runs ----

  ghost predicate IsRun(states: seq<State>, actions: seq<Action>) {
    && |states| == |actions| + 1 && states[0] == INITIAL
    && forall i | 0 <= i < |actions| :: IsEnabled(states[i], actions[i]) && states[i + 1] == Next(states[i], actions[i])
  }

  lemma {:induction false} ReachableIsSound(states: seq<State>, actions: seq<Action>, i: nat)
    requires IsRun(states, actions) && i < |states|
    ensures Inv(states[i])
  {
    hide IsEnabled, Next;
    if i > 0 {
      ReachableIsSound(states, actions, i - 1);
      StepKeepsInv(states[i - 1], actions[i - 1]);
    }
  }

  /** Once a failure is recorded no byte of a call frame is ever written. */
  lemma {:induction false} NoByteAfterFailure(states: seq<State>, actions: seq<Action>, i: nat, j: nat)
    requires IsRun(states, actions) && i <= j < |states| && states[i].failure.Some?
    ensures states[j].writes == states[i].writes && states[j].failure == states[i].failure
    decreases j
  {
    if i < j {
      NoByteAfterFailure(states, actions, i, j - 1);
    }
  }

  /** From the moment the session has recorded its error until it reports, what it will read is settled: the flag does not
      change and says whether this call wrote a byte. */
  lemma {:induction false} StartedIsFinal(states: seq<State>, actions: seq<Action>, i: nat, j: nat)
    requires IsRun(states, actions) && i <= j < |states| && states[i].session.Recorded?
    requires forall k | i <= k < j :: !actions[k].ReportStarted?
    ensures states[j].session == states[i].session && states[j].callStarted == states[i].callStarted
    ensures !states[j].callStarted ==> !HasWritten(states[j], states[j].session.call)
    decreases j
  {
    ReachableIsSound(states, actions, i);
    ReachableIsSound(states, actions, j);
    if i < j {
      StartedIsFinal(states, actions, i, j - 1);
    }
  }

  lemma {:induction false} WritesGrow(states: seq<State>, actions: seq<Action>, i: nat, j: nat)
    requires IsRun(states, actions) && i <= j < |states|
    ensures states[i].writes <= states[j].writes
    decreases j
  {
    if i < j {
      WritesGrow(states, actions, i, j - 1);
    }
  }

  lemma ReportIsFinal(s: State, a: Action, call: nat)
    requires Inv(s) && IsEnabled(s, a) && call in s.reports
    ensures call in Next(s, a).reports && Next(s, a).reports[call] == s.reports[call]
  {
  }

  /** What was reported of a call is never reported otherwise. */
  lemma {:induction false} ReportsStay(states: seq<State>, actions: seq<Action>, call: nat, i: nat, j: nat)
    requires IsRun(states, actions) && i <= j < |states| && call in states[i].reports
    ensures call in states[j].reports && states[j].reports[call] == states[i].reports[call]
    decreases j
  {
    hide Inv, IsEnabled, Next;
    if i < j {
      ReportsStay(states, actions, call, i, j - 1);
      ReachableIsSound(states, actions, j - 1);
      ReportIsFinal(states[j - 1], actions[j - 1], call);
    }
  }

  /** Calls are begun one after the other. */
  lemma {:induction false} CallsStayBegun(states: seq<State>, actions: seq<Action>, i: nat, j: nat)
    requires IsRun(states, actions) && i <= j < |states|
    ensures states[i].callsBegun <= states[j].callsBegun
    decreases j
  {
    hide IsEnabled, Next;
    if i < j {
      CallsStayBegun(states, actions, i, j - 1);
      StepIsMonotone(states[j - 1], actions[j - 1]);
    }
  }

  /** A call reported as not dispatched wrote no byte before the report and writes none after it. */
  lemma NotDispatchedNeverWrites(states: seq<State>, actions: seq<Action>, call: nat, i: nat, j: nat)
    requires IsRun(states, actions) && i < |states| && j < |states|
    requires call in states[i].reports && !states[i].reports[call]
    ensures !HasWritten(states[j], call)
  {
    hide IsEnabled, Next;
    ReachableIsSound(states, actions, i);
    if i <= j {
      NoByteAfterFailure(states, actions, i, j);
    } else {
      WritesGrow(states, actions, j, i);
      FewerWrites(states[j], states[i], call);
    }
  }

  lemma FewerWrites(s: State, t: State, call: nat)
    requires s.writes <= t.writes
    ensures HasWritten(s, call) ==> HasWritten(t, call)
  {
    forall w | w in s.writes ensures w in t.writes {
    }
  }

  /** A poll writes exactly when no failure is recorded and the generation is the one the latest call was begun under, whichever
      call its frame belongs to; after drift it records the failure instead. */
  lemma WritesExactly(s: State, frame: nat, size: nat)
    requires IsEnabled(s, PollWrite(frame, size))
    ensures Next(s, PollWrite(frame, size)).writes ==
            if size > 0 && s.failure.None? && s.callGeneration == Some(s.generation) then s.writes + [Write(s.frames[frame].call, size, s.generation)]
            else s.writes
    ensures Next(s, PollWrite(frame, size)).failure ==
            if s.failure.None? && s.callGeneration != Some(s.generation) then Some("mcp.capability_drift") else s.failure
  {
  }

  /** Generations only grow, and calls are begun one after the other. */
  lemma StepIsMonotone(s: State, a: Action)
    requires IsEnabled(s, a)
    ensures s.generation <= Next(s, a).generation && s.callsBegun <= Next(s, a).callsBegun
    ensures !a.BeginCall? ==> Next(s, a).callsBegun == s.callsBegun && Next(s, a).callGeneration == s.callGeneration
  {
  }

  /** The step at which the latest call began. */
  lemma {:induction false} LatestCallBegan(states: seq<State>, actions: seq<Action>, i: nat) returns (k: nat)
    requires IsRun(states, actions) && i < |states| && states[i].callGeneration.Some?
    ensures k < i && actions[k].BeginCall? && states[k].session.Cleared?
    ensures states[k].callsBegun + 1 == states[i].callsBegun && states[i].callGeneration == Some(states[k].session.generation)
    ensures states[k].session.generation <= states[k].generation
    ensures forall j | k <= j <= i :: states[k].generation <= states[j].generation <= states[i].generation
  {
    hide Next, IsEnabled;
    assert i > 0;
    DiscoveryIsPast(states, actions, i - 1);
    StepIsMonotone(states[i - 1], actions[i - 1]);
    if actions[i - 1].BeginCall? {
      k := i - 1;
      BeginsUnder(states[k]);
    } else {
      k := LatestCallBegan(states, actions, i - 1);
    }
  }

  lemma BeginsUnder(s: State)
    requires IsEnabled(s, BeginCall)
    ensures s.session.Cleared? && Next(s, BeginCall).callGeneration == Some(s.session.generation)
    ensures Next(s, BeginCall).callsBegun == s.callsBegun + 1 && Next(s, BeginCall).generation == s.generation
  {
  }

  /** What was discovered is no newer than the inventory. */
  lemma {:induction false} DiscoveryIsPast(states: seq<State>, actions: seq<Action>, i: nat)
    requires IsRun(states, actions) && i < |states|
    ensures states[i].session.Discovering? ==> states[i].session.from <= states[i].generation
    ensures states[i].session.Discovered? || states[i].session.Cleared? ==> states[i].session.generation <= states[i].generation
  {
    if i > 0 {
      DiscoveryIsPast(states, actions, i - 1);
    }
  }

  /** Every byte of a call frame is written with no failure recorded and with the inventory unchanged since the latest call's discovery:
      `k` is the step at which that call began. For a frame left over from an earlier call this is the later discovery. */
  lemma WrittenUnderDiscoveredGeneration(states: seq<State>, actions: seq<Action>, i: nat) returns (k: nat)
    requires IsRun(states, actions) && i < |actions| && states[i + 1].writes != states[i].writes
    ensures actions[i].PollWrite? && states[i].failure.None?
    ensures states[i + 1].writes[|states[i].writes|..] == [Write(states[i].frames[actions[i].frame].call, actions[i].size, states[i].generation)]
    ensures k < i && actions[k].BeginCall? && states[k].callsBegun + 1 == states[i].callsBegun
    ensures states[i].frames[actions[i].frame].call <= states[k].callsBegun
    ensures states[k].session == Cleared(states[i].generation) && forall j | k <= j <= i :: states[j].generation == states[i].generation
    ensures states[i].session.Calling? || states[i].session.Answered? ==> states[i].session.generation == states[i].generation
  {
    ReachableIsSound(states, actions, i);
    assert actions[i].PollWrite?;
    WritesExactly(states[i], actions[i].frame, actions[i].size);
    k := LatestCallBegan(states, actions, i);
    assert states[i].frames[actions[i].frame] in states[i].frames;
  }

  // ---- What a dispatch and an accepted answer show ----

  lemma AnsweredSince(states: seq<State>, actions: seq<Action>, i: nat) returns (k: nat)
    requires IsRun(states, actions) && i < |states| && states[i].session.Answered?
    ensures k < i && actions[k] == FindHealthy && states[k].failure.None?
    ensures states[k].session == Calling(states[i].session.call, states[i].session.generation)
    ensures forall j | k < j <= i :: states[j].session == states[i].session
    decreases i
  {
    hide Inv;
    assert i > 0;
    if actions[i - 1] == FindHealthy {
      k := i - 1;
    } else {
      k := AnsweredSince(states, actions, i - 1);
    }
  }

  /** A call whose answer is accepted was found healthy before, and the inventory is still the one it was discovered under. */
  lemma AcceptedIsHealthy(states: seq<State>, actions: seq<Action>, i: nat) returns (k: nat)
    requires IsRun(states, actions) && i < |actions| && actions[i] == AcceptResponse
    ensures k < i && actions[k] == FindHealthy && states[k].failure.None? && states[k].session.Calling?
    ensures states[i].session.Answered? && states[k].session.call == states[i].session.call
    ensures states[i].generation == states[i].session.generation == states[k].session.generation
    ensures states[i + 1].reports == states[i].reports[states[i].session.call := true]
  {
    k := AnsweredSince(states, actions, i);
  }

  /** On a failed wire an idle session stays idle: no discovery and no call ever begins. */
  lemma {:induction false} FailedWireBeginsNothing(states: seq<State>, actions: seq<Action>, i: nat, j: nat)
    requires IsRun(states, actions) && i <= j < |states| && states[i].failure.Some? && states[i].session.Ready?
    ensures states[j].session.Ready? && states[j].callsBegun == states[i].callsBegun && states[j].failure == states[i].failure
    decreases j
  {
    if i < j {
      FailedWireBeginsNothing(states, actions, i, j - 1);
      NoByteAfterFailure(states, actions, i, j);
    }
  }

  lemma DiscoveryGoesOn(s: State, a: Action)
    requires IsEnabled(s, a) && (Next(s, a).session.Discovered? || Next(s, a).session.Cleared?)
    ensures if a == FinishDiscovery then s.session.Discovering? && s.session.from == s.generation == Next(s, a).session.generation
            else if a == ClearCall then s.session == Discovered(Next(s, a).session.generation)
            else s.session == Next(s, a).session
  {
  }

  /** What was discovered was read and confirmed under one generation: the inventory did not change in between. */
  lemma {:induction false} DiscoveredUnchanged(states: seq<State>, actions: seq<Action>, i: nat) returns (k: nat, f: nat)
    requires IsRun(states, actions) && i < |states| && (states[i].session.Discovered? || states[i].session.Cleared?)
    ensures k < f < i && actions[k] == ReadGeneration && actions[f] == FinishDiscovery
    ensures forall j | k <= j <= f :: states[j].generation == states[i].session.generation
    decreases i
  {
    hide IsEnabled, Next;
    assert i > 0;
    DiscoveryGoesOn(states[i - 1], actions[i - 1]);
    if actions[i - 1] == FinishDiscovery {
      f := i - 1;
      k := ReadSince(states, actions, f);
    } else {
      k, f := DiscoveredUnchanged(states, actions, i - 1);
    }
  }

  lemma {:induction false} ReadSince(states: seq<State>, actions: seq<Action>, i: nat) returns (k: nat)
    requires IsRun(states, actions) && i < |states| && states[i].session.Discovering?
    ensures k < i && actions[k] == ReadGeneration && states[k].generation == states[i].session.from
    ensures forall j | k <= j <= i :: states[k].generation <= states[j].generation <= states[i].generation
    decreases i
  {
    assert i > 0;
    StepIsMonotone(states[i - 1], actions[i - 1]);
    if actions[i - 1] == ReadGeneration {
      k := i - 1;
    } else {
      k := ReadSince(states, actions, i - 1);
    }
  }

  lemma CallGoesOn(s: State, a: Action)
    requires IsEnabled(s, a) && Next(s, a).session.HasCall()
    ensures if a == BeginCall then
              var t := Next(s, a); t.session.call == s.callsBegun && !t.callStarted && t.writes == s.writes
            else
              var t := Next(s, a);
              && s.session.HasCall() && t.session.call == s.session.call && |s.writes| <= |t.writes|
              && (t.callStarted <==> s.callStarted || |s.writes| < |t.writes|)
  {
  }

  /** The flag says exactly whether a byte of some call frame was written since the call under way began. */
  lemma {:induction false} StartedExactly(states: seq<State>, actions: seq<Action>, i: nat) returns (k: nat)
    requires IsRun(states, actions) && i < |states| && states[i].session.HasCall()
    ensures k < i && actions[k] == BeginCall && states[k].callsBegun == states[i].session.call
    ensures |states[k].writes| <= |states[i].writes|
    ensures states[i].callStarted <==> |states[k].writes| < |states[i].writes|
    decreases i
  {
    hide IsEnabled, Next;
    assert i > 0;
    CallGoesOn(states[i - 1], actions[i - 1]);
    if actions[i - 1] == BeginCall {
      k := i - 1;
    } else {
      k := StartedExactly(states, actions, i - 1);
    }
  }

  /** A call that ends in error is reported as dispatched exactly when a byte was written since it began. */
  lemma ReportedExactly(states: seq<State>, actions: seq<Action>, i: nat) returns (k: nat)
    requires IsRun(states, actions) && i < |actions| && actions[i] == ReportStarted
    ensures k < i && actions[k] == BeginCall && states[i].session.HasCall() && states[k].callsBegun == states[i].session.call
    ensures states[i].session.call in states[i + 1].reports
    ensures states[i + 1].reports[states[i].session.call] <==> |states[k].writes| < |states[i].writes|
  {
    k := StartedExactly(states, actions, i);
  }

  /** A call under way can end in error at any moment. */
  lemma CallsCanEnd(s: State)
    requires s.session.HasCall()
    ensures s.session.Calling? || s.session.Answered? ==> IsEnabled(s, EndWithError) && Next(s, EndWithError).session == Ended(s.session.call)
    ensures s.session.Ended? ==> IsEnabled(s, RecordError("")) && Next(s, RecordError("")).session == Recorded(s.session.call)
    ensures s.session.Recorded? ==> IsEnabled(s, ReportStarted) && s.session.call in Next(s, ReportStarted).reports
  {
  }

  lemma {:induction false} GenerationIsBounded(states: seq<State>, actions: seq<Action>, i: nat)
    requires IsRun(states, actions) && i < |states|
    ensures states[i].generation <= MAX_U64
  {
    if i > 0 {
      GenerationIsBounded(states, actions, i - 1);
    }
  }

  /** A call begins only after its wire was found healthy once more, since the discovery that it runs under. */
  lemma {:induction false} ClearedSince(states: seq<State>, actions: seq<Action>, i: nat) returns (k: nat)
    requires IsRun(states, actions) && i < |states| && states[i].session.Cleared?
    ensures k < i && actions[k] == ClearCall && states[k].failure.None? && states[k].session == Discovered(states[i].session.generation)
    ensures forall j | k < j <= i :: states[j].session == states[i].session
    decreases i
  {
    assert i > 0;
    if actions[i - 1] == ClearCall {
      k := i - 1;
    } else {
      k := ClearedSince(states, actions, i - 1);
    }
  }

  lemma BegunCallIsHealthy(states: seq<State>, actions: seq<Action>, i: nat) returns (r: nat, f: nat, k: nat)
    requires IsRun(states, actions) && i < |actions| && actions[i] == BeginCall
    ensures r < f < k < i && actions[r] == ReadGeneration && actions[f] == FinishDiscovery && actions[k] == ClearCall
    ensures states[k].failure.None? && states[i + 1].callGeneration == Some(states[r].generation)
    ensures forall j | r <= j <= f :: states[j].generation == states[r].generation
  {
    k := ClearedSince(states, actions, i);
    r, f := DiscoveredUnchanged(states, actions, k);
  }
}

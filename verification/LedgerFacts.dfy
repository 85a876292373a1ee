/** What a growing ledger keeps: its replay, its usage record and its interruption count. */
module LedgerFacts {
  import opened Text
  import opened Contracts
  import opened UsageArithmetic
  import opened ReceiptChecker
  import opened ReceiptTrace

  /** The exact sum of everything charged, with no bound. */
  function Total(charges: seq<Usage>): Usage {
    if charges == [] then ZERO_USAGE else Plus(Total(charges[..|charges| - 1]), charges[|charges| - 1])
  }

  lemma TotalGrows(charges: seq<Usage>, u: Usage)
    ensures Total(charges + [u]) == Plus(Total(charges), u)
  {
    assert (charges + [u])[..|charges|] == charges;
  }

  function Interruptions(events: seq<RunEvent>): nat {
    if events == [] then 0
    else Interruptions(events[..|events| - 1]) + if events[|events| - 1].Interruption? then 1 else 0
  }

  lemma InterruptionsGrow(events: seq<RunEvent>, e: RunEvent)
    ensures Interruptions(events + [e]) == Interruptions(events) + if e.Interruption? then 1 else 0
  {
    assert (events + [e])[..|events|] == events;
  }

  /** Decisions, executions and mutations: the events that name a protected effect. */
  predicate IsMention(e: RunEvent) {
    e.EffectDecision? || e.ToolExecution? || e.Mutation?
  }

  function Mentions(events: seq<RunEvent>): seq<RunEvent> {
    if events == [] then []
    else Mentions(events[..|events| - 1]) + if IsMention(events[|events| - 1]) then [events[|events| - 1]] else []
  }

  lemma MentionsGrow(events: seq<RunEvent>, e: RunEvent)
    ensures Mentions(events + [e]) == Mentions(events) + if IsMention(e) then [e] else []
  {
    assert (events + [e])[..|events|] == events;
  }

  /** The backward search for the latest usage. */
  method LatestUsage(events: seq<RunEvent>) returns (latest: Option<Usage>)
    ensures latest == UsageAt(events, |events|)
  {
    var index: nat := |events|;
    while index > 0
      invariant index <= |events| && UsageAt(events, index) == UsageAt(events, |events|)
    {
      if events[index - 1].UsageRecorded? {
        return Some(events[index - 1].usage);
      }
      index := index - 1;
    }
    latest := None;
  }

  /** Every usage event differs from the one before it. */
  ghost predicate UsageNeverRepeats(events: seq<RunEvent>) {
    forall i | 0 <= i < |events| && events[i].UsageRecorded? :: UsageAt(events, i) != Some(events[i].usage)
  }

  lemma {:induction false} UsageAtGrows(events: seq<RunEvent>, e: RunEvent, i: nat)
    requires i <= |events|
    ensures UsageAt(events + [e], i) == UsageAt(events, i)
  {
    if i > 0 {
      UsageAtGrows(events, e, i - 1);
    }
  }

  lemma UsageGrows(events: seq<RunEvent>, e: RunEvent)
    ensures UsageAt(events + [e], |events| + 1) == if e.UsageRecorded? then Some(e.usage) else UsageAt(events, |events|)
    ensures UsageNeverRepeats(events) && (e.UsageRecorded? ==> UsageAt(events, |events|) != Some(e.usage)) ==> UsageNeverRepeats(events + [e])
  {
    UsageAtGrows(events, e, |events|);
    if UsageNeverRepeats(events) && (e.UsageRecorded? ==> UsageAt(events, |events|) != Some(e.usage)) {
      forall i | 0 <= i < |events + [e]| && (events + [e])[i].UsageRecorded?
        ensures UsageAt(events + [e], i) != Some((events + [e])[i].usage)
      {
        UsageAtGrows(events, e, i);
      }
    }
  }

  /** The checker's pass over these events ends in this state, as long as their count is a safe integer. */
  ghost predicate Replays(request: AgentRunRequest, events: seq<RunEvent>, st: Replay) {
    |events| <= MAX_SAFE_INTEGER ==> ReplayEvents(request, request.subject.digest, events) == Success(st)
  }

  lemma ReplaysGrows(request: AgentRunRequest, events: seq<RunEvent>, st: Replay, e: RunEvent)
    requires Replays(request, events, st)
    requires e.sequence == |events| + 1 && CheckEvent(request, st, e).None?
    ensures Replays(request, events + [e], Apply(st, e))
  {
    hide CheckEvent, Apply, ReplayEvents;
    ReplayAppend(request, request.subject.digest, events, e);
  }

  /** A ledger longer than the safe integers is never accepted. */
  lemma TooLongIsRefused(request: AgentRunRequest, events: seq<RunEvent>)
    requires |events| > MAX_SAFE_INTEGER
    ensures ReplayEvents(request, request.subject.digest, events).Failure?
  {
    hide CheckEvent, Apply;
  }
}

/** Checked, capped and unbounded sums of the four usage counters. */
module UsageArithmetic {
  import opened Text
  import opened Contracts

  const ZERO_USAGE := Usage(0, 0, 0, 0)

  predicate AtMost(a: Usage, b: Usage) {
    a.cost <= b.cost && a.elapsed <= b.elapsed && a.tokens <= b.tokens && a.toolCalls <= b.toolCalls
  }

  predicate UsageIsSafe(u: Usage) {
    AtMost(u, Usage(MAX_SAFE_INTEGER, MAX_SAFE_INTEGER, MAX_SAFE_INTEGER, MAX_SAFE_INTEGER))
  }

  predicate WithinBudget(u: Usage, b: ResourceBudget) {
    u.cost <= b.maxCost && u.elapsed <= b.maxElapsed && u.tokens <= b.maxTokens && u.toolCalls <= b.maxToolCalls
  }

  predicate ExceedsBudget(u: Usage, b: ResourceBudget) {
    u.cost > b.maxCost || u.elapsed > b.maxElapsed || u.tokens > b.maxTokens || u.toolCalls > b.maxToolCalls
  }

  /** The exact total, with no bound. */
  function Plus(a: Usage, b: Usage): Usage {
    Usage(a.cost + b.cost, a.elapsed + b.elapsed, a.tokens + b.tokens, a.toolCalls + b.toolCalls)
  }

  function Min(a: nat, b: nat): nat {
    if a <= b then a else b
  }

  /** Every counter cut at the JCS safe integer limit. */
  function Cap(u: Usage): Usage {
    Usage(Min(u.cost, MAX_SAFE_INTEGER), Min(u.elapsed, MAX_SAFE_INTEGER), Min(u.tokens, MAX_SAFE_INTEGER), Min(u.toolCalls, MAX_SAFE_INTEGER))
  }

  function CheckedSum(current: nat, usage: nat): Option<nat> {
    if current + usage <= MAX_SAFE_INTEGER then Some(current + usage) else None
  }

  function CappedSum(current: nat, usage: nat): nat {
    Min(current + usage, MAX_SAFE_INTEGER)
  }

  function Project(current: Usage, usage: Usage): (projected: Option<Usage>)
    ensures projected.Some? <==> UsageIsSafe(Plus(current, usage))
    ensures projected.Some? ==> projected.value == Plus(current, usage)
  {
    var cost := CheckedSum(current.cost, usage.cost);
    var elapsed := CheckedSum(current.elapsed, usage.elapsed);
    var tokens := CheckedSum(current.tokens, usage.tokens);
    var toolCalls := CheckedSum(current.toolCalls, usage.toolCalls);
    if cost.None? || elapsed.None? || tokens.None? || toolCalls.None? then None
    else Some(Usage(cost.value, elapsed.value, tokens.value, toolCalls.value))
  }

  /** Why a run must stop when this usage is added, if it must: overflow first, then the budget. */
  function ChargeReason(current: Usage, usage: Usage, budget: ResourceBudget): (reason: Option<Word>)
    ensures reason.None? <==> UsageIsSafe(Plus(current, usage)) && WithinBudget(Plus(current, usage), budget)
  {
    if !UsageIsSafe(Plus(current, usage)) then Some(UsageOverflow)
    else if !WithinBudget(Plus(current, usage), budget) then Some(BudgetExceeded)
    else None
  }

  /** Capping each sum on the way equals capping the exact total once. */
  function CappedUsage(current: Usage, usage: Usage): (capped: Usage)
    ensures UsageIsSafe(current) ==> AtMost(current, capped) && UsageIsSafe(capped)
    ensures forall total | current == Cap(total) :: capped == Cap(Plus(total, usage))
  {
    Usage(CappedSum(current.cost, usage.cost), CappedSum(current.elapsed, usage.elapsed),
          CappedSum(current.tokens, usage.tokens), CappedSum(current.toolCalls, usage.toolCalls))
  }

  // ---- The four counters one by one ----

  datatype Counter = Cost | Elapsed | Tokens | ToolCalls

  function Count(u: Usage, counter: Counter): nat {
    match counter
    case Cost => u.cost
    case Elapsed => u.elapsed
    case Tokens => u.tokens
    case ToolCalls => u.toolCalls
  }

  function Limit(b: ResourceBudget, counter: Counter): nat {
    match counter
    case Cost => b.maxCost
    case Elapsed => b.maxElapsed
    case Tokens => b.maxTokens
    case ToolCalls => b.maxToolCalls
  }

  /** Sums, caps and comparisons treat every counter alike and none by another. */
  lemma CountersAreSeparate(a: Usage, b: Usage, budget: ResourceBudget)
    ensures AtMost(a, b) <==> forall k: Counter :: Count(a, k) <= Count(b, k)
    ensures UsageIsSafe(a) <==> forall k: Counter :: Count(a, k) <= MAX_SAFE_INTEGER
    ensures WithinBudget(a, budget) <==> forall k: Counter :: Count(a, k) <= Limit(budget, k)
    ensures forall k: Counter :: Count(Plus(a, b), k) == Count(a, k) + Count(b, k)
    ensures forall k: Counter :: Count(Cap(a), k) == if Count(a, k) <= MAX_SAFE_INTEGER then Count(a, k) else MAX_SAFE_INTEGER
    ensures forall k: Counter :: Count(ZERO_USAGE, k) == 0
  {
    assert forall u: Usage :: Count(u, Cost) == u.cost && Count(u, Elapsed) == u.elapsed && Count(u, Tokens) == u.tokens && Count(u, ToolCalls) == u.toolCalls;
    assert Limit(budget, Cost) == budget.maxCost && Limit(budget, Elapsed) == budget.maxElapsed && Limit(budget, Tokens) == budget.maxTokens && Limit(budget, ToolCalls) == budget.maxToolCalls;
  }
}

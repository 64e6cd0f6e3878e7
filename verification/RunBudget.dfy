/** The resource budget of one run: turns, tools, tokens and cost, each with its limit. */
module RunBudget {
  import opened Wrappers
  import opened RunStore
  import opened EventLedger

  const MAX_TURNS := 4
  const MAX_TOOLS := 6
  const MAX_TOKENS: real := 12_000.0

  datatype WorkflowError =
    | InputSchemaInvalid | OutputSchemaInvalid | OutputReferenceInvalid | PromptVersionUnavailable
    | TurnLimitExceeded | ToolLimitExceeded | TokenLimitExceeded | TimeoutExceeded | CostLimitExceeded
    | ModelRouteUnavailable | RuntimeFailed

  type Thrown = Option<WorkflowError>

  datatype Budget = Budget(turns: nat, tools: nat, totalTokens: real, costUsd: real, costLimitUsd: Option<real>)

  const FRESH_BUDGET := Budget(0, 0, 0.0, 0.0, None)

  /** Holds at every moment: the reserving calls refuse to go further. */
  predicate Bounded(b: Budget) {
    b.turns <= MAX_TURNS && b.tools <= MAX_TOOLS
  }

  /** No token or cost limit is overrun. A recording call that throws leaves this broken. */
  predicate Within(b: Budget) {
    b.totalTokens <= MAX_TOKENS && (b.costLimitUsd.Some? ==> b.costUsd <= b.costLimitUsd.value)
  }

  /** The limit in force is at most `limit`. */
  predicate LimitedBy(b: Budget, limit: real) {
    b.costLimitUsd.Some? && b.costLimitUsd.value <= limit
  }

  function Remaining(b: Budget): Thrown {
    if b.turns >= MAX_TURNS then Some(TurnLimitExceeded)
    else if b.tools >= MAX_TOOLS then Some(ToolLimitExceeded)
    else if b.totalTokens >= MAX_TOKENS then Some(TokenLimitExceeded)
    else if b.costLimitUsd.Some? && b.costUsd >= b.costLimitUsd.value then Some(CostLimitExceeded)
    else None
  }

  /** The limit that the error names is used up. */
  predicate Exceeded(b: Budget, code: WorkflowError) {
    match code
    case TurnLimitExceeded => b.turns >= MAX_TURNS
    case ToolLimitExceeded => b.tools >= MAX_TOOLS
    case TokenLimitExceeded => b.totalTokens >= MAX_TOKENS
    case CostLimitExceeded => b.costLimitUsd.Some? && b.costUsd >= b.costLimitUsd.value
    case _ => false
  }

  /** The worst case of a request goes beyond the limit that the error names. */
  predicate DoesNotFit(b: Budget, inputTokens: nat, maxOutputTokens: nat, estimatedCost: real, code: WorkflowError) {
    match code
    case TokenLimitExceeded => b.totalTokens + (inputTokens + maxOutputTokens) as real > MAX_TOKENS
    case CostLimitExceeded => b.costLimitUsd.Some? && b.costUsd + estimatedCost > b.costLimitUsd.value
    case _ => false
  }

  function Limited(b: Budget, maxCostUsd: real): Budget {
    var current := if b.costLimitUsd.Some? then b.costLimitUsd.value else maxCostUsd;
    b.(costLimitUsd := Some(if current < maxCostUsd then current else maxCostUsd))
  }

  function OverCost(b: Budget): Thrown {
    if b.costLimitUsd.Some? && b.costUsd > b.costLimitUsd.value then Some(CostLimitExceeded) else None
  }

  /** `recordPiEvent`: the counters move before the limits are looked at. */
  function Recorded(b: Budget, event: PiEvent): (Budget, Thrown) {
    if event.raw == Named(TurnStart) then
      if b.turns >= MAX_TURNS then (b, Some(TurnLimitExceeded)) else (b.(turns := b.turns + 1), None)
    else if event.raw == Named(ToolExecutionStart) then
      if b.tools >= MAX_TOOLS then (b, Some(ToolLimitExceeded)) else (b.(tools := b.tools + 1), None)
    else match AssistantUsage(event)
      case None => (b, None)
      case Some(u) =>
        var spent := b.(totalTokens := b.totalTokens + u.totalTokens, costUsd := b.costUsd + u.costUsd);
        (spent, if spent.totalTokens > MAX_TOKENS then Some(TokenLimitExceeded) else OverCost(spent))
  }

  /** `preflightProvider`: the prompt, the output and the estimated cost must still fit. */
  function Preflighted(b: Budget, inputTokens: nat, maxOutputTokens: nat, maxCostUsd: real, estimatedCost: real)
    : (Budget, Thrown)
  {
    if b.tools >= MAX_TOOLS then (b, Some(ToolLimitExceeded))
    else if b.totalTokens >= MAX_TOKENS then (b, Some(TokenLimitExceeded))
    else
      var limited := Limited(b, maxCostUsd);
      (limited,
       if OverCost(limited).Some? then OverCost(limited)
       else if b.totalTokens + (inputTokens + maxOutputTokens) as real > MAX_TOKENS then Some(TokenLimitExceeded)
       else if b.costUsd + estimatedCost > limited.costLimitUsd.value then Some(CostLimitExceeded)
       else None)
  }

  class RunBudget {
    var turns: nat
    var tools: nat
    var totalTokens: real
    var costUsd: real
    var costLimitUsd: Option<real>

    function Snapshot(): Budget
      reads this
    {
      Budget(turns, tools, totalTokens, costUsd, costLimitUsd)
    }

    constructor ()
      ensures Snapshot() == FRESH_BUDGET
    {
      turns, tools, totalTokens, costUsd, costLimitUsd := 0, 0, 0.0, 0.0, None;
    }

    /** Passing means that every limit is still strictly ahead. */
    method PreflightAttempt() returns (thrown: Thrown)
      ensures thrown == Remaining(Snapshot()) && (thrown.Some? ==> Exceeded(Snapshot(), thrown.value))
      ensures thrown.None? ==> Within(Snapshot()) && Snapshot().turns < MAX_TURNS && Snapshot().tools < MAX_TOOLS
      ensures thrown.None? <==> turns < 4 && tools < 6 && totalTokens < 12_000.0
                                && (costLimitUsd.Some? ==> costUsd < costLimitUsd.value)
    {
      if turns >= MAX_TURNS {
        return Some(TurnLimitExceeded);
      }
      if tools >= MAX_TOOLS {
        return Some(ToolLimitExceeded);
      }
      if totalTokens >= MAX_TOKENS {
        return Some(TokenLimitExceeded);
      }
      if costLimitUsd.Some? && costUsd >= costLimitUsd.value {
        return Some(CostLimitExceeded);
      }
      return None;
    }

    method SetCostLimit(maxCostUsd: real) returns (thrown: Thrown)
      modifies this`costLimitUsd
      ensures Snapshot() == Limited(old(Snapshot()), maxCostUsd) && thrown == OverCost(Snapshot())
      ensures costLimitUsd == if old(costLimitUsd).Some? && old(costLimitUsd).value <= maxCostUsd
                              then old(costLimitUsd) else Some(maxCostUsd)
      ensures thrown == if costUsd > costLimitUsd.value then Some(CostLimitExceeded) else None
      ensures thrown.Some? ==> Exceeded(Snapshot(), thrown.value)
      ensures LimitedBy(Snapshot(), maxCostUsd)
      ensures forall limit :: LimitedBy(old(Snapshot()), limit) ==> LimitedBy(Snapshot(), limit)
      ensures thrown.None? && old(Snapshot()).totalTokens <= MAX_TOKENS ==> Within(Snapshot())
    {
      var current := if costLimitUsd.Some? then costLimitUsd.value else maxCostUsd;
      costLimitUsd := Some(if current < maxCostUsd then current else maxCostUsd);
      return if costUsd > costLimitUsd.value then Some(CostLimitExceeded) else None;
    }

    method ReserveTurn() returns (thrown: Thrown)
      modifies this`turns
      ensures thrown.Some? <==> old(turns) >= 4
      ensures thrown.Some? ==> thrown == Some(TurnLimitExceeded)
      ensures turns == if thrown.Some? then old(turns) else old(turns) + 1
    {
      if turns >= MAX_TURNS {
        return Some(TurnLimitExceeded);
      }
      turns := turns + 1;
      return None;
    }

    method ReserveTool() returns (thrown: Thrown)
      modifies this`tools
      ensures thrown.Some? <==> old(tools) >= 6
      ensures thrown.Some? ==> thrown == Some(ToolLimitExceeded)
      ensures tools == if thrown.Some? then old(tools) else old(tools) + 1
    {
      if tools >= MAX_TOOLS {
        return Some(ToolLimitExceeded);
      }
      tools := tools + 1;
      return None;
    }

    /** Before a provider is called: the worst case of the request must still fit. */
    method PreflightProvider(inputTokens: nat, maxOutputTokens: nat, maxCostUsd: real, estimatedCost: real)
      returns (thrown: Thrown)
      modifies this`costLimitUsd
      ensures (Snapshot(), thrown)
              == Preflighted(old(Snapshot()), inputTokens, maxOutputTokens, maxCostUsd, estimatedCost)
      ensures thrown == Some(ToolLimitExceeded) <==> tools >= 6
      ensures var limit := if old(costLimitUsd).Some? && old(costLimitUsd).value <= maxCostUsd
                           then old(costLimitUsd).value else maxCostUsd;
              && (thrown.None? <==>
                    tools < 6 && totalTokens < 12_000.0 && costUsd <= limit && costUsd + estimatedCost <= limit
                    && totalTokens + (inputTokens + maxOutputTokens) as real <= 12_000.0)
              && (thrown == Some(TokenLimitExceeded) <==>
                    tools < 6 && (totalTokens >= 12_000.0
                                  || (costUsd <= limit
                                      && totalTokens + (inputTokens + maxOutputTokens) as real > 12_000.0)))
              && (thrown.Some? ==> thrown.value in {ToolLimitExceeded, TokenLimitExceeded, CostLimitExceeded})
              && costLimitUsd == if tools >= 6 || totalTokens >= 12_000.0 then old(costLimitUsd) else Some(limit)
      ensures thrown.None? ==> Within(Snapshot()) && LimitedBy(Snapshot(), maxCostUsd)
      ensures thrown.Some? ==> Exceeded(Snapshot(), thrown.value)
                               || DoesNotFit(Snapshot(), inputTokens, maxOutputTokens, estimatedCost, thrown.value)
      ensures forall limit :: LimitedBy(old(Snapshot()), limit) ==> LimitedBy(Snapshot(), limit)
    {
      if tools >= MAX_TOOLS {
        return Some(ToolLimitExceeded);
      }
      if totalTokens >= MAX_TOKENS {
        return Some(TokenLimitExceeded);
      }
      thrown := SetCostLimit(maxCostUsd);
      if thrown.Some? {
        return;
      }
      if totalTokens + inputTokens as real + maxOutputTokens as real > MAX_TOKENS {
        return Some(TokenLimitExceeded);
      }
      if costUsd + estimatedCost > costLimitUsd.value {
        return Some(CostLimitExceeded);
      }
    }

    /** What a call records stays recorded even when it throws; a call that does not throw stays within the limits. */
    method RecordPiEvent(event: PiEvent) returns (thrown: Thrown)
      modifies this
      ensures (Snapshot(), thrown) == Recorded(old(Snapshot()), event)
      ensures thrown == Some(TurnLimitExceeded) <==> event.raw == Named(TurnStart) && old(turns) >= 4
      ensures thrown == Some(ToolLimitExceeded) <==> event.raw == Named(ToolExecutionStart) && old(tools) >= 6
      ensures turns == old(turns) + if event.raw == Named(TurnStart) && thrown.None? then 1 else 0
      ensures tools == old(tools) + if event.raw == Named(ToolExecutionStart) && thrown.None? then 1 else 0
      ensures totalTokens == old(totalTokens) + if Reports(event) then event.usage.value.totalTokens else 0.0
      ensures costUsd == old(costUsd) + if Reports(event) then event.usage.value.costUsd else 0.0
      ensures thrown == Some(TokenLimitExceeded) <==> Reports(event) && totalTokens > 12_000.0
      ensures thrown == Some(CostLimitExceeded) <==>
              Reports(event) && totalTokens <= 12_000.0 && costLimitUsd.Some? && costUsd > costLimitUsd.value
      ensures thrown.None? || thrown.value in {TurnLimitExceeded, ToolLimitExceeded, TokenLimitExceeded,
                                               CostLimitExceeded}
      ensures Bounded(old(Snapshot())) ==> Bounded(Snapshot())
      ensures Within(old(Snapshot())) && thrown.None? ==> Within(Snapshot())
      ensures totalTokens == old(totalTokens) + TokenSum([event]) && costUsd == old(costUsd) + CostSum([event])
      ensures costLimitUsd == old(costLimitUsd)
      ensures thrown.Some? ==> Exceeded(Snapshot(), thrown.value) && Remaining(Snapshot()).Some?
    {
      assert TokenSum([]) == 0.0 && CostSum([]) == 0.0;
      assert [event][..0] == [];
      thrown := None;
      if event.raw == Named(TurnStart) {
        thrown := ReserveTurn();
      } else if event.raw == Named(ToolExecutionStart) {
        thrown := ReserveTool();
      }
      if thrown.Some? {
        return;
      }
      var usage := AssistantUsage(event);
      if usage.Some? {
        totalTokens := totalTokens + usage.value.totalTokens;
        costUsd := costUsd + usage.value.costUsd;
        if totalTokens > MAX_TOKENS {
          return Some(TokenLimitExceeded);
        }
        if costLimitUsd.Some? && costUsd > costLimitUsd.value {
          return Some(CostLimitExceeded);
        }
      }
    }
  }
}

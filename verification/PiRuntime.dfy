/** One call of the model runtime: it drives the run's budget while the provider streams its events. */
module PiRuntime {
  import opened Wrappers
  import opened RunStore
  import opened EventLedger
  import opened RunBudget
  import opened Postflight

  datatype FailureKind = ProviderFailure | JsonFailure | TimeoutFailure | BudgetFailure | RouteFailure

  datatype Ending = Success(output: Output) | Failure(kind: FailureKind, code: WorkflowError)

  /** A runtime result; `accounted` says that the runtime has recorded its events in the budget itself. */
  datatype RuntimeResult = RuntimeResult(ending: Ending, events: seq<PiEvent>, maxCostUsd: Option<real>,
                                         accounted: bool)

  datatype Exception = Workflow(code: WorkflowError) | Abort | OtherError

  datatype Called = Returned(result: RuntimeResult) | Threw(error: Exception)

  datatype Route = Route(maxTokens: nat, maxCostUsd: real)

  /** How the stream of events ends: with a message, or with an error of its own. */
  datatype StreamEnd = Finished(stopFailed: bool, output: Option<Output>) | StreamFailed(abort: bool)

  /** Everything the outside decides about one call of the runtime. */
  datatype Provider = Provider(route: Option<Route>, inputTokens: nat, estimatedCost: real, events: seq<PiEvent>,
                               end: StreamEnd, timedOut: bool, aborted: bool)

  function SafeFailure(kind: FailureKind, events: seq<PiEvent>, maxCostUsd: Option<real>): Called {
    Returned(RuntimeResult(Failure(kind, RuntimeFailed), events, maxCostUsd, true))
  }

  predicate AbortsItself(provider: Provider) {
    provider.aborted || provider.end == StreamFailed(true)
  }

  /** Without a route to a model the call throws its own error. */
  predicate ThrowsItself(provider: Provider, code: WorkflowError) {
    provider.route.None? && code == ModelRouteUnavailable
  }

  /** A limit is used up, or the worst case of the provider's request goes beyond it. */
  predicate LimitMet(b: Budget, provider: Provider, code: WorkflowError) {
    || Exceeded(b, code)
    || (provider.route.Some?
        && DoesNotFit(b, provider.inputTokens, provider.route.value.maxTokens, provider.estimatedCost, code))
  }

  /** The budget after recording a stretch of events, none of them refused. */
  function Spent(b: Budget, events: seq<PiEvent>): Budget {
    if events == [] then b else Recorded(Spent(b, events[..|events| - 1]), events[|events| - 1]).0
  }

  /** The budget after a call whose stream went as far as these events. */
  function AfterCall(b: Budget, provider: Provider, events: seq<PiEvent>): Budget {
    if Admitted(b, provider).Some? then Spent(Admitted(b, provider).value, events) else b
  }

  lemma SpentStep(b: Budget, stream: seq<PiEvent>, n: nat)
    requires n < |stream|
    ensures Spent(b, stream[..n + 1]) == Recorded(Spent(b, stream[..n]), stream[n]).0
  {
    hide Recorded;
    assert stream[..n + 1][..n] == stream[..n];
  }

  /** The budget refuses event `n`, the first to be refused. */
  ghost predicate RefusedAt(b: Budget, stream: seq<PiEvent>, n: nat) {
    && n < |stream| && Recorded(Spent(b, stream[..n]), stream[n]).1.Some?
    && forall k :: 0 <= k < n ==> Recorded(Spent(b, stream[..k]), stream[k]).1.None?
  }

  /** The call gets as far as its stream, with this budget. */
  function Admitted(b: Budget, provider: Provider): Option<Budget> {
    if provider.route.None? || b.turns >= MAX_TURNS then None
    else
      var checked := Preflighted(b.(turns := b.turns + 1), provider.inputTokens, provider.route.value.maxTokens,
                                 provider.route.value.maxCostUsd, provider.estimatedCost);
      if checked.1.Some? then None else Some(checked.0)
  }

  /** The budget refuses an event of the call's stream, be it the last one. */
  ghost predicate Refuses(b: Budget, provider: Provider) {
    Admitted(b, provider).Some? && exists n: nat :: RefusedAt(Admitted(b, provider).value, provider.events, n)
  }

  /** The call is not made: no route, or a limit that is used up or too near for the worst case of the request. */
  predicate GetsNowhere(b: Budget, provider: Provider) {
    match provider.route
    case None => true
    case Some(route) =>
      var limit :=
        if b.costLimitUsd.Some? && b.costLimitUsd.value <= route.maxCostUsd then b.costLimitUsd.value
        else route.maxCostUsd;
      || b.turns >= 4 || b.tools >= 6 || b.totalTokens >= 12_000.0 || b.costUsd > limit
      || b.totalTokens + (provider.inputTokens + route.maxTokens) as real > 12_000.0
      || b.costUsd + provider.estimatedCost > limit
  }

  /** How a returned result shows what went wrong. */
  predicate EndsLike(provider: Provider, ending: Ending) {
    if provider.timedOut then ending == Failure(TimeoutFailure, RuntimeFailed)
    else if provider.end.StreamFailed? || provider.end.stopFailed then ending == Failure(ProviderFailure, RuntimeFailed)
    else if provider.end.output == None then ending == Failure(JsonFailure, RuntimeFailed)
    else ending == Success(provider.end.output.value)
  }

  lemma AdmittedExactly(b: Budget, provider: Provider)
    ensures Admitted(b, provider).None? <==> GetsNowhere(b, provider)
    ensures Admitted(b, provider).Some? ==>
              var max := provider.route.value.maxCostUsd;
              Admitted(b, provider).value == Budget(b.turns + 1, b.tools, b.totalTokens, b.costUsd,
                                                    if b.costLimitUsd.Some? && b.costLimitUsd.value <= max
                                                    then b.costLimitUsd else Some(max))
  {
  }

  /** How a call that returns must end: a fired timeout hides whatever else went wrong. */
  function EndingOf(provider: Provider): Ending {
    if provider.timedOut then Failure(TimeoutFailure, RuntimeFailed)
    else match provider.end
      case StreamFailed(_) => Failure(ProviderFailure, RuntimeFailed)
      case Finished(true, _) => Failure(ProviderFailure, RuntimeFailed)
      case Finished(false, None) => Failure(JsonFailure, RuntimeFailed)
      case Finished(false, Some(output)) => Success(output)
  }

  /** What a returned result promises about the budget that the call was given. */
  ghost predicate Accounts(r: RuntimeResult, before: Budget, after: Budget) {
    && after.totalTokens == before.totalTokens + TokenSum(r.events)
    && after.costUsd == before.costUsd + CostSum(r.events)
    && (r.maxCostUsd.Some? ==> LimitedBy(after, r.maxCostUsd.value))
    && (r.ending.Success? && Within(before) ==> Within(after))
  }

  ghost predicate OnlyTightens(before: Budget, after: Budget) {
    && (Bounded(before) ==> Bounded(after))
    && forall limit :: LimitedBy(before, limit) ==> LimitedBy(after, limit)
  }

  lemma SumLast(events: seq<PiEvent>, n: nat)
    requires n < |events|
    ensures TokenSum(events[..n + 1]) == TokenSum(events[..n]) + TokenSum([events[n]])
    ensures CostSum(events[..n + 1]) == CostSum(events[..n]) + CostSum([events[n]])
  {
    assert events[..n + 1][..n] == events[..n] && [events[n]][..0] == [];
  }

  /** The stream loop: every event is kept, then recorded; the first refused record ends it. */
  method Stream(stream: seq<PiEvent>, budget: RunBudget) returns (events: seq<PiEvent>, thrown: Thrown)
    modifies budget
    ensures events <= stream && budget.Snapshot() == Spent(old(budget.Snapshot()), events)
    ensures thrown.None? ==> events == stream && NoneRefused(old(budget.Snapshot()), stream, |stream|)
    ensures thrown.Some? ==> events != [] && RefusedAt(old(budget.Snapshot()), stream, |events| - 1)
    ensures budget.totalTokens == old(budget.totalTokens) + TokenSum(events)
    ensures budget.costUsd == old(budget.costUsd) + CostSum(events)
    ensures var taken := if thrown.None? then events else events[..|events| - 1];
            && budget.turns == old(budget.turns) + Starts(taken, TurnStart)
            && budget.tools == old(budget.tools) + Starts(taken, ToolExecutionStart)
    ensures budget.costLimitUsd == old(budget.costLimitUsd)
    ensures Bounded(old(budget.Snapshot())) ==> Bounded(budget.Snapshot())
    ensures thrown.None? && Within(old(budget.Snapshot())) ==> Within(budget.Snapshot())
    ensures thrown.Some? ==> Exceeded(budget.Snapshot(), thrown.value) && Remaining(budget.Snapshot()).Some?
  {
    hide Recorded, TokenSum, CostSum, Remaining, Exceeded, Within, Bounded, Spent, RefusedAt, Starts, NoneRefused,
         AssistantUsage;
    events, thrown := [], None;
    NothingSpent(budget.Snapshot());
    NothingStarted(budget.Snapshot(), stream);
    ghost var start := budget.Snapshot();
    for n := 0 to |stream|
      invariant events == stream[..n] && thrown.None?
      invariant budget.Snapshot() == Spent(start, events)
      invariant NoneRefused(start, stream, n)
      invariant budget.totalTokens == old(budget.totalTokens) + TokenSum(events)
      invariant budget.costUsd == old(budget.costUsd) + CostSum(events)
      invariant budget.turns == old(budget.turns) + Starts(events, TurnStart)
      invariant budget.tools == old(budget.tools) + Starts(events, ToolExecutionStart)
      invariant budget.costLimitUsd == old(budget.costLimitUsd)
      invariant Bounded(old(budget.Snapshot())) ==> Bounded(budget.Snapshot())
      invariant Within(old(budget.Snapshot())) ==> Within(budget.Snapshot())
    {
      events := events + [stream[n]];
      assert events == stream[..n + 1];
      SumLast(stream, n);
      StartsLast(stream, n, TurnStart);
      StartsLast(stream, n, ToolExecutionStart);
      SpentOne(start, stream, n);
      thrown := budget.RecordPiEvent(stream[n]);
      if thrown.Some? {
        assert events[..|events| - 1] == stream[..n];
        return;
      }
    }
  }

  lemma NothingSpent(b: Budget)
    ensures TokenSum([]) == 0.0 && CostSum([]) == 0.0 && Spent(b, []) == b
  {
  }

  lemma NothingStarted(b: Budget, stream: seq<PiEvent>)
    ensures Starts([], TurnStart) == Starts([], ToolExecutionStart) == 0 && NoneRefused(b, stream, 0)
  {
  }

  /** No event before the n-th is refused. */
  ghost predicate NoneRefused(b: Budget, stream: seq<PiEvent>, n: nat) {
    forall k: nat :: k < n ==> !RefusedAt(b, stream, k)
  }

  lemma SpentOne(b: Budget, stream: seq<PiEvent>, n: nat)
    requires n < |stream| && NoneRefused(b, stream, n)
    ensures Spent(b, stream[..n + 1]) == Recorded(Spent(b, stream[..n]), stream[n]).0
    ensures RefusedAt(b, stream, n) <==> Recorded(Spent(b, stream[..n]), stream[n]).1.Some?
    ensures !RefusedAt(b, stream, n) ==> NoneRefused(b, stream, n + 1)
  {
    hide Recorded;
    SpentStep(b, stream, n);
    FirstRefused(b, stream, n);
  }

  /** Where no event was the first to be refused none was refused. */
  lemma {:induction false} FirstRefused(b: Budget, stream: seq<PiEvent>, n: nat)
    requires n <= |stream| && NoneRefused(b, stream, n)
    ensures forall k :: 0 <= k < n ==> Recorded(Spent(b, stream[..k]), stream[k]).1.None?
  {
    hide Recorded, Spent;
    if n != 0 {
      FirstRefused(b, stream, n - 1);
      assert !RefusedAt(b, stream, n - 1);
    }
  }

  /**
   * `runStructured`; `refused` reports that the budget refused an event of the stream. That is thrown on, unless the
   * route's timeout has fired as well: then it is reported as a timeout, and only the next attempt's preflight sees
   * the spent limit.
   */
  method RunStructured(provider: Provider, budget: RunBudget) returns (r: Called, refused: bool)
    modifies budget
    ensures OnlyTightens(old(budget.Snapshot()), budget.Snapshot())
    ensures refused <==> Refuses(old(budget.Snapshot()), provider)
    ensures refused && r.Returned? ==>
              r.result.ending == Failure(TimeoutFailure, RuntimeFailed) && Remaining(budget.Snapshot()).Some?
    ensures r.Returned? && !refused ==>
              && budget.turns == old(budget.turns) + 1 + Starts(r.result.events, TurnStart)
              && budget.tools == old(budget.tools) + Starts(r.result.events, ToolExecutionStart)
    ensures r.Returned? ==> r.result.accounted && Accounts(r.result, old(budget.Snapshot()), budget.Snapshot())
    ensures r.Threw? ==> !r.error.OtherError? && (r.error.Abort? ==> AbortsItself(provider))
    ensures r.Threw? && r.error.Workflow? ==>
              LimitMet(budget.Snapshot(), provider, r.error.code) || ThrowsItself(provider, r.error.code)
    ensures r.Returned? ==> r.result.events <= provider.events && (!refused ==> r.result.events == provider.events)
    ensures r.Returned? && refused ==>
              r.result.events != []
              && RefusedAt(Admitted(old(budget.Snapshot()), provider).value, provider.events, |r.result.events| - 1)
    ensures r.Returned? ==> provider.route.Some? && r.result.maxCostUsd == Some(provider.route.value.maxCostUsd)
    ensures r.Returned? ==> r.result.ending == EndingOf(provider)
    ensures r.Returned? ==> budget.Snapshot() == AfterCall(old(budget.Snapshot()), provider, r.result.events)
    ensures r.Threw? <==> GetsNowhere(old(budget.Snapshot()), provider) || provider.aborted
                          || (!provider.timedOut && (refused || provider.end == StreamFailed(true)))
    ensures r.Returned? ==> EndsLike(provider, r.result.ending)
    ensures r.Threw? && !r.error.Workflow? ==> !refused && AbortsItself(provider)
  {
    hide Spent, TokenSum, CostSum, Remaining, Starts, GetsNowhere;
    AdmittedExactly(budget.Snapshot(), provider);
    refused := false;
    if provider.route.None? {
      return Threw(Workflow(ModelRouteUnavailable)), refused;
    }
    var route := provider.route.value;
    var routeMaxCost := Some(route.maxCostUsd);
    var thrown := budget.ReserveTurn();
    if thrown.Some? {
      return Threw(Workflow(thrown.value)), refused;
    }
    thrown := budget.PreflightProvider(provider.inputTokens, route.maxTokens, route.maxCostUsd, provider.estimatedCost);
    if thrown.Some? {
      return Threw(Workflow(thrown.value)), refused;
    }
    assert Admitted(old(budget.Snapshot()), provider) == Some(budget.Snapshot());
    ghost var admitted := budget.Snapshot();
    var events;
    events, thrown := Stream(provider.events, budget);
    refused := thrown.Some?;
    if refused {
      ghost var n: nat := |events| - 1;
      assert RefusedAt(admitted, provider.events, n);
    }
    if thrown.Some? || provider.end.StreamFailed? {
      // The catch clause.
      if provider.timedOut && !provider.aborted {
        r := SafeFailure(TimeoutFailure, events, routeMaxCost);
      } else if thrown.Some? {
        r := Threw(Workflow(thrown.value));
      } else if provider.aborted || provider.end.abort {
        r := Threw(Abort);
      } else {
        r := SafeFailure(ProviderFailure, events, routeMaxCost);
      }
      return;
    }
    if provider.aborted {
      return Threw(Abort), refused;
    }
    if provider.timedOut {
      return SafeFailure(TimeoutFailure, events, routeMaxCost), refused;
    }
    if provider.end.stopFailed {
      return SafeFailure(ProviderFailure, events, routeMaxCost), refused;
    }
    if provider.end.output.None? {
      return Returned(RuntimeResult(Failure(JsonFailure, RuntimeFailed), events, routeMaxCost, true)), refused;
    }
    return Returned(RuntimeResult(Success(provider.end.output.value), events, routeMaxCost, true)), refused;
  }

  /** A refusal may meet the last event: then all events are returned, and the swallowed limit does not show in them. */
  lemma RefusalOfLastEvent(b: Budget, provider: Provider)
    requires Admitted(b, provider).Some? && |provider.events| == 1
    requires b.totalTokens + TokenSum(provider.events) > MAX_TOKENS
    ensures Refuses(b, provider) && RefusedAt(Admitted(b, provider).value, provider.events, |provider.events| - 1)
  {
    var admitted := Admitted(b, provider).value;
    assert provider.events[..0] == [] && provider.events == [provider.events[0]];
    NothingSpent(admitted);
    assert RefusedAt(admitted, provider.events, 0);
  }
}

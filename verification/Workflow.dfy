/**
 * The orchestration loop of one workflow run: a model attempt, then one of its one-shot allowances
 * (a provider retry, a correction, a fallback route), until the run succeeds, fails or is cancelled.
 */
module Workflow {
  import opened Sequences
  import opened Wrappers
  import opened RunStore
  import opened EventLedger
  import opened RunBudget
  import opened Postflight
  import opened PiRuntime

  const MAX_FALLBACKS := 1

  datatype Phase = Initial | Retry | Correction | Fallback

  /** One reading of the abort signals and of the clock. */
  datatype Signals = Signals(user: bool, deadline: bool, overtime: bool) {
    predicate Aborted() { user || deadline }
  }

  /** A runtime that touches the budget itself, or one that leaves the recording to the loop. */
  datatype Runtime = Pi(provider: Provider) | Plain(called: PlainCall)

  datatype PlainCall =
    | PlainReturns(ending: Ending, events: seq<PiEvent>, maxCostUsd: Option<real>)
    | PlainThrows(error: Exception)

  /** What the run does not decide itself: each attempt's runtime, each reading of the signals, the route's retries. */
  datatype World = World(inputValid: bool, promptKnown: bool, input: Input, retryCount: int,
                         attempts: nat -> Runtime, signals: nat -> Signals)

  /** One attempt: what the runtime was called with, the budget as it stood then, and the result it returned. */
  datatype Attempt = Attempt(number: nat, routeAttempt: nat, phase: Phase, given: Budget, result: RuntimeResult)

  datatype RunReceipt = RunReceipt(receipt: Receipt, usage: Usage, turnCount: nat, toolCallCount: nat, retryCount: nat,
                                   fallbackCount: nat, schemaValid: bool, factsValid: bool, output: Option<Output>)

  datatype Outcome = Settles(run: RunReceipt) | Raised(invalidInput: bool)

  /** What the provider's events must not do for the counters to be readable off the trace. */
  predicate LeavesOrchestrationAlone(events: seq<PiEvent>) {
    forall i :: 0 <= i < |events| ==>
      events[i].raw != Named(AutoRetryStart) && events[i].raw != Named(AutoRetryEnd)
      && events[i].raw != Named(ModelFallback)
  }

  predicate RuntimeLeavesAlone(r: Runtime) {
    match r
    case Pi(provider) => LeavesOrchestrationAlone(provider.events)
    case Plain(PlainReturns(_, events, _)) => LeavesOrchestrationAlone(events)
    case Plain(PlainThrows(_)) => true
  }

  ghost predicate WorldLeavesAlone(world: World) {
    forall n: nat :: RuntimeLeavesAlone(world.attempts(n))
  }

  /** An abort signal that has fired stays fired. */
  ghost predicate Sticky(signals: nat -> Signals) {
    forall t: nat, u: nat :: t <= u && signals(t).Aborted() ==> signals(u).Aborted()
  }

  /** The runtime's own call ends in an abort. */
  predicate AbortsRun(r: Runtime) {
    match r
    case Pi(provider) => AbortsItself(provider)
    case Plain(PlainThrows(error)) => error == Abort
    case _ => false
  }

  /** The runtime's own call throws the error. */
  predicate RuntimeThrows(r: Runtime, code: WorkflowError) {
    match r
    case Pi(provider) => ThrowsItself(provider, code)
    case Plain(PlainThrows(error)) => error == Workflow(code)
    case _ => false
  }

  /**
   * The signals were read as a timeout just now: the deadline had fired or the time was over, but not the user's
   * signal.
   */
  predicate TimedOut(world: World, ticks: nat, code: WorkflowError) {
    && code == TimeoutExceeded && ticks > 0 && !world.signals(ticks - 1).user
    && (world.signals(ticks - 1).deadline || world.signals(ticks - 1).overtime)
  }

  /** The limit that the error names is used up, or a provider was asked for more than it leaves. */
  predicate RuntimeLimit(r: Runtime, b: Budget, code: WorkflowError) {
    Exceeded(b, code) || (r.Pi? && LimitMet(b, r.provider, code))
  }

  /** Why attempt `n` threw: the signals were read as a timeout just now, a limit was met, or the runtime threw. */
  predicate ThrowReason(world: World, n: nat, ticks: nat, b: Budget, code: WorkflowError) {
    || TimedOut(world, ticks, code)
    || RuntimeLimit(world.attempts(n), b, code)
    || RuntimeThrows(world.attempts(n), code)
  }

  /** The budget refuses an event of the runtime's own stream. */
  ghost predicate RuntimeRefuses(r: Runtime, b: Budget) {
    r.Pi? && Refuses(b, r.provider)
  }

  function AfterRuntime(r: Runtime, given: Budget, events: seq<PiEvent>): Budget {
    if r.Pi? then AfterCall(given, r.provider, events) else given
  }

  /** The budget after an attempt that came to a decision: the call, the route's limit, the events not yet recorded. */
  function BudgetAfter(r: Runtime, given: Budget, result: RuntimeResult): Budget {
    var called := AfterRuntime(r, given, result.events);
    var limited := if result.maxCostUsd.Some? then Limited(called, result.maxCostUsd.value) else called;
    if result.accounted then limited else Spent(limited, result.events)
  }

  /** The budget that the attempt after the `i`-th was given, or the one after the last. */
  function GivenAfter(attempts: seq<Attempt>, i: nat, now: Budget): Budget {
    if i + 1 < |attempts| then attempts[i + 1].given else now
  }

  /** Each attempt was given the budget that the one before left; `now` is the budget after the last. */
  ghost predicate BudgetsFollow(world: World, attempts: seq<Attempt>, now: Budget) {
    && (if attempts == [] then now == FRESH_BUDGET else attempts[0].given == FRESH_BUDGET)
    && forall i: nat :: i < |attempts| ==>
                          GivenAfter(attempts, i, now)
                          == BudgetAfter(world.attempts(i), attempts[i].given, attempts[i].result)
  }

  lemma BudgetsGrow(world: World, attempts: seq<Attempt>, a: Attempt, now: Budget, next: Budget)
    requires BudgetsFollow(world, attempts, now) && a.given == now
    requires next == BudgetAfter(world.attempts(|attempts|), a.given, a.result)
    ensures BudgetsFollow(world, attempts + [a], next)
  {
    hide BudgetAfter;
    var all := attempts + [a];
    forall i: nat | i < |all|
      ensures GivenAfter(all, i, next) == BudgetAfter(world.attempts(i), all[i].given, all[i].result)
    {
      if i < |attempts| {
        assert all[i] == attempts[i];
        assert GivenAfter(all, i, next) == GivenAfter(attempts, i, now);
      }
    }
  }

  function Tokens(attempts: seq<Attempt>): real {
    if attempts == [] then 0.0
    else Tokens(attempts[..|attempts| - 1]) + TokenSum(attempts[|attempts| - 1].result.events)
  }

  function Cost(attempts: seq<Attempt>): real {
    if attempts == [] then 0.0 else Cost(attempts[..|attempts| - 1]) + CostSum(attempts[|attempts| - 1].result.events)
  }

  /** The turns that an attempt takes: those its events start, and one for a call that does its own bookkeeping. */
  function TurnsTaken(result: RuntimeResult): nat {
    Starts(result.events, TurnStart) + if result.accounted then 1 else 0
  }

  function Turns(attempts: seq<Attempt>): nat {
    if attempts == [] then 0 else Turns(attempts[..|attempts| - 1]) + TurnsTaken(attempts[|attempts| - 1].result)
  }

  function ToolCalls(attempts: seq<Attempt>): nat {
    if attempts == [] then 0
    else ToolCalls(attempts[..|attempts| - 1]) + Starts(attempts[|attempts| - 1].result.events, ToolExecutionStart)
  }

  /** The budget has counted every turn and every tool call of the attempts. */
  predicate CountsAll(attempts: seq<Attempt>, b: Budget) {
    b.turns == Turns(attempts) && b.tools == ToolCalls(attempts)
  }

  lemma CountsGrow(attempts: seq<Attempt>, a: Attempt, b: Budget, after: Budget)
    requires CountsAll(attempts, b)
    requires after.turns == b.turns + TurnsTaken(a.result)
    requires after.tools == b.tools + Starts(a.result.events, ToolExecutionStart)
    ensures CountsAll(attempts + [a], after)
  {
    hide TurnsTaken, Starts;
    assert (attempts + [a])[..|attempts|] == attempts;
  }

  lemma SumsGrow(attempts: seq<Attempt>, a: Attempt)
    ensures Tokens(attempts + [a]) == Tokens(attempts) + TokenSum(a.result.events)
    ensures Cost(attempts + [a]) == Cost(attempts) + CostSum(a.result.events)
  {
    assert (attempts + [a])[..|attempts|] == attempts;
  }

  function Phases(attempts: seq<Attempt>): (r: seq<Phase>)
    ensures |r| == |attempts|
  {
    seq(|attempts|, i requires 0 <= i < |attempts| => attempts[i].phase)
  }

  /** Four phases, none of them twice: at most four attempts. */
  lemma AtMostFour(phases: seq<Phase>)
    requires NoDup(phases)
    ensures |phases| <= 4
  {
    var all := {Initial, Retry, Correction, Fallback};
    forall p ensures p in all { match p { case Initial => case Retry => case Correction => case Fallback => } }
    SizeOfDistinct(phases);
    SizeOfSubset(Elems(phases), all);
  }

  /** The loop's mutable variables. */
  datatype LoopState = LoopState(phase: Phase, routeAttempt: nat, attempt: nat, providerRetries: nat, maxRetries: nat,
                                 fallbackCount: nat, corrected: bool, retryOpen: bool)

  /** How much of the three allowances is left. */
  function Allowances(s: LoopState): nat
    requires s.providerRetries <= s.maxRetries && s.fallbackCount <= MAX_FALLBACKS
  {
    (s.maxRetries - s.providerRetries) + (MAX_FALLBACKS - s.fallbackCount) + if s.corrected then 0 else 1
  }

  /** The phase of the next attempt is new, and each phase beyond the first has spent its allowance. */
  ghost predicate PhasesSpent(s: LoopState, attempts: seq<Attempt>) {
    var begun := Phases(attempts) + [s.phase];
    && NoDup(begun) && begun[0] == Initial
    && s.providerRetries <= s.maxRetries <= 1 && s.fallbackCount <= MAX_FALLBACKS
    && (Retry in begun <==> s.providerRetries == 1)
    && (Correction in begun <==> s.corrected)
    && (Fallback in begun <==> s.fallbackCount == 1)
    && s.routeAttempt == s.fallbackCount
    && s.attempt == |attempts|
    && forall i :: 0 <= i < |attempts| ==> attempts[i].number == i && attempts[i].routeAttempt <= s.routeAttempt
  }

  /** The three counters, as the trace shows them. */
  predicate TraceCounts(s: LoopState, events: seq<TraceEvent>) {
    && Count(events, AutoRetryStart) == s.providerRetries
    && Count(events, AutoRetryEnd) + (if s.retryOpen then 1 else 0) == s.providerRetries
    && Count(events, ModelFallback) == s.fallbackCount
  }

  /** What holds between attempts, and still when the run succeeds. */
  ghost predicate Settled(attempts: seq<Attempt>, usage: Usage, b: Budget) {
    && usage.totalTokens == b.totalTokens == Tokens(attempts)
    && usage.costUsd == b.costUsd == Cost(attempts)
    && Bounded(b)
    && forall i :: 0 <= i < |attempts| && attempts[i].result.maxCostUsd.Some? ==>
              LimitedBy(b, attempts[i].result.maxCostUsd.value)
  }

  // ----- receipts -----

  function CodeText(code: WorkflowError): string {
    match code
    case InputSchemaInvalid => "input_schema_invalid"
    case OutputSchemaInvalid => "output_schema_invalid"
    case OutputReferenceInvalid => "output_reference_invalid"
    case PromptVersionUnavailable => "prompt_version_unavailable"
    case TurnLimitExceeded => "turn_limit_exceeded"
    case ToolLimitExceeded => "tool_limit_exceeded"
    case TokenLimitExceeded => "token_limit_exceeded"
    case TimeoutExceeded => "timeout_exceeded"
    case CostLimitExceeded => "cost_limit_exceeded"
    case ModelRouteUnavailable => "model_route_unavailable"
    case RuntimeFailed => "runtime_failed"
  }

  /** `failureCode`: the error a run fails with when a failed attempt has no allowance left. */
  function FailureCode(kind: FailureKind, code: WorkflowError): WorkflowError {
    match kind
    case TimeoutFailure => TimeoutExceeded
    case BudgetFailure => code
    case RouteFailure => ModelRouteUnavailable
    case _ => RuntimeFailed
  }

  /** `metadata` and `receipt`: the counters as they stand. */
  function Metadata(s: LoopState, events: seq<TraceEvent>, usage: Usage, b: Budget, status: RunStatus,
                    errorCode: Option<WorkflowError>, output: Option<Output>): RunReceipt {
    RunReceipt(Receipt(status, if errorCode.Some? then Some(CodeText(errorCode.value)) else None, events, output.Some?),
               usage, b.turns, b.tools, s.providerRetries, s.fallbackCount, output.Some?, output.Some?, output)
  }

  /** What every receipt of the loop shows, however the run ended. */
  ghost predicate ReceiptSound(world: World, run: RunReceipt) {
    && Closed(run.receipt)
    && (run.receipt.status == Succeeded <==> run.output.Some?)
    && run.schemaValid == run.factsValid == run.receipt.hasResult == run.output.Some?
    && run.turnCount <= MAX_TURNS && run.toolCallCount <= MAX_TOOLS
    && run.retryCount <= 1 && run.fallbackCount <= MAX_FALLBACKS
    && (WorldLeavesAlone(world) ==>
          && Count(run.receipt.events, AutoRetryStart) == run.retryCount
          && Count(run.receipt.events, ModelFallback) == run.fallbackCount)
  }

  /** What a succeeded run has gone through: limits kept, usage fully accounted for, output checked, retries closed. */
  ghost predicate SuccessSound(world: World, run: RunReceipt, attempts: seq<Attempt>) {
    && attempts != [] && run.output.Some? && attempts[|attempts| - 1].result.ending == Success(run.output.value)
    && Acceptable(world.input, run.output.value)
    && run.usage.totalTokens == Tokens(attempts) && run.usage.totalTokens <= MAX_TOKENS
    && run.usage.costUsd == Cost(attempts)
    && (forall i :: 0 <= i < |attempts| && attempts[i].result.maxCostUsd.Some? ==>
          run.usage.costUsd <= attempts[i].result.maxCostUsd.value)
    && (WorldLeavesAlone(world) ==>
          Count(run.receipt.events, AutoRetryStart) == Count(run.receipt.events, AutoRetryEnd))
  }

  /** What one appended event adds to each of the three counts. */
  lemma Logged(events: seq<TraceEvent>, eventType: EventType)
    ensures var after := events + [TraceEvent(|events| + 1, eventType)];
            && Count(after, AutoRetryStart) == Count(events, AutoRetryStart)
               + (if eventType == AutoRetryStart then 1 else 0)
            && Count(after, AutoRetryEnd) == Count(events, AutoRetryEnd) + (if eventType == AutoRetryEnd then 1 else 0)
            && Count(after, ModelFallback) == Count(events, ModelFallback)
               + (if eventType == ModelFallback then 1 else 0)
  {
    var event := TraceEvent(|events| + 1, eventType);
    CountLast(events, event, AutoRetryStart);
    CountLast(events, event, AutoRetryEnd);
    CountLast(events, event, ModelFallback);
  }

  function CountIf(eventType: EventType, wanted: EventType): nat {
    if eventType == wanted then 1 else 0
  }

  /** The loop's own `append`. */
  method Log(ledger: EventLedger, eventType: EventType)
    modifies ledger`events
    ensures old(ledger.events) <= ledger.events && |ledger.events| == |old(ledger.events)| + 1
    ensures Numbered(old(ledger.events)) ==> Numbered(ledger.events)
    ensures ledger.events[|ledger.events| - 1].eventType == eventType
    ensures TypesIn(ledger.events) == TypesIn(old(ledger.events)) + [eventType]
    ensures Count(ledger.events, AutoRetryStart) == Count(old(ledger.events), AutoRetryStart)
            + CountIf(eventType, AutoRetryStart)
    ensures Count(ledger.events, AutoRetryEnd) == Count(old(ledger.events), AutoRetryEnd)
            + CountIf(eventType, AutoRetryEnd)
    ensures Count(ledger.events, ModelFallback) == Count(old(ledger.events), ModelFallback)
            + CountIf(eventType, ModelFallback)
  {
    hide Count, TypesIn;
    Logged(ledger.events, eventType);
    TypesLast(ledger.events, TraceEvent(|ledger.events| + 1, eventType));
    ledger.Append(eventType);
  }

  // ----- one attempt -----

  datatype Step = Proceed | Cancel | Throw(code: WorkflowError) | Crash

  /** What a stretch of the run may do to the trace and the budget, whatever comes of it. */
  twostate predicate Extends(ledger: EventLedger, budget: RunBudget, quiet: bool)
    reads ledger, budget
  {
    && old(ledger.events) <= ledger.events
    && (Numbered(old(ledger.events)) ==> Numbered(ledger.events))
    && (Bounded(old(budget.Snapshot())) ==> Bounded(budget.Snapshot()))
    && (quiet ==>
          && Count(ledger.events, AutoRetryStart) == Count(old(ledger.events), AutoRetryStart)
          && Count(ledger.events, AutoRetryEnd) == Count(old(ledger.events), AutoRetryEnd)
          && Count(ledger.events, ModelFallback) == Count(old(ledger.events), ModelFallback))
  }

  /** The trace grows by one event of a type of its own: the three counts stay. */
  lemma QuietAppend(events: seq<TraceEvent>, event: TraceEvent)
    requires event.eventType != AutoRetryStart && event.eventType != AutoRetryEnd && event.eventType != ModelFallback
    ensures Count(events + [event], AutoRetryStart) == Count(events, AutoRetryStart)
    ensures Count(events + [event], AutoRetryEnd) == Count(events, AutoRetryEnd)
    ensures Count(events + [event], ModelFallback) == Count(events, ModelFallback)
  {
    CountLast(events, event, AutoRetryStart);
    CountLast(events, event, AutoRetryEnd);
    CountLast(events, event, ModelFallback);
  }

  /** The turns and tool calls of the events are counted, unless they were accounted for before. */
  predicate CountsFollow(before: Budget, after: Budget, events: seq<PiEvent>, accounted: bool) {
    && after.turns == before.turns + (if accounted then 0 else Starts(events, TurnStart))
    && after.tools == before.tools + (if accounted then 0 else Starts(events, ToolExecutionStart))
  }

  /** The budget has taken in the tokens and the cost itself, unless they were accounted for before. */
  predicate BudgetFollows(before: Budget, after: Budget, tokens: real, cost: real, accounted: bool) {
    && after.costLimitUsd == before.costLimitUsd
    && (accounted ==> after == before)
    && (!accounted ==> after.totalTokens == before.totalTokens + tokens && after.costUsd == before.costUsd + cost)
    && (Within(before) ==> Within(after))
  }

  /** What ledger and budget have taken in when a stretch of events has gone through. */
  predicate Absorbed(events: seq<PiEvent>, accounted: bool, usage: Usage, after: Usage, b: Budget, b': Budget) {
    && after.totalTokens == usage.totalTokens + TokenSum(events)
    && after.costUsd == usage.costUsd + CostSum(events)
    && BudgetFollows(b, b', TokenSum(events), CostSum(events), accounted)
    && CountsFollow(b, b', events, accounted)
    && b' == if accounted then b else Spent(b, events)
  }

  lemma NothingAbsorbed(accounted: bool, usage: Usage, b: Budget)
    ensures Absorbed([], accounted, usage, usage, b, b)
  {
  }

  /** What the ledger and the budget do with one more event. */
  predicate TakesIn(event: PiEvent, accounted: bool, usage: Usage, after: Usage, b: Budget, b': Budget) {
    && after.totalTokens == usage.totalTokens + TokenSum([event])
    && after.costUsd == usage.costUsd + CostSum([event])
    && BudgetFollows(b, b', TokenSum([event]), CostSum([event]), accounted)
    && b' == (if accounted then b else Recorded(b, event).0)
    && b'.turns == b.turns + (if !accounted && event.raw == Named(TurnStart) then 1 else 0)
    && b'.tools == b.tools + (if !accounted && event.raw == Named(ToolExecutionStart) then 1 else 0)
  }

  lemma AbsorbedOneMore(events: seq<PiEvent>, n: nat, accounted: bool, usage: Usage, b: Budget, u: Usage, c: Budget,
                        u': Usage, c': Budget)
    requires n < |events| && Absorbed(events[..n], accounted, usage, u, b, c)
    requires TakesIn(events[n], accounted, u, u', c, c')
    ensures Absorbed(events[..n + 1], accounted, usage, u', b, c')
  {
    SumLast(events, n);
    StartsLast(events, n, TurnStart);
    StartsLast(events, n, ToolExecutionStart);
    SpentStep(b, events, n);
    hide TokenSum, CostSum, Recorded, Spent, Starts, Within;
  }

  /** One event goes into the ledger, unless its cost is out of range. */
  method AppendEvent(rawEvent: PiEvent, ledger: EventLedger) returns (ok: bool)
    modifies ledger
    ensures old(ledger.events) <= ledger.events && (Numbered(old(ledger.events)) ==> Numbered(ledger.events))
    ensures LeavesOrchestrationAlone([rawEvent]) ==>
              && Count(ledger.events, AutoRetryStart) == Count(old(ledger.events), AutoRetryStart)
              && Count(ledger.events, AutoRetryEnd) == Count(old(ledger.events), AutoRetryEnd)
              && Count(ledger.events, ModelFallback) == Count(old(ledger.events), ModelFallback)
    ensures ok ==> ledger.usage.totalTokens == old(ledger.usage).totalTokens + TokenSum([rawEvent])
                   && ledger.usage.costUsd == old(ledger.usage).costUsd + CostSum([rawEvent])
    ensures ledger.firstTokenSeen <==> old(ledger.firstTokenSeen) || EndsInDelta(rawEvent)
    ensures if !ok then ledger.events == old(ledger.events)
            else TypesIn(ledger.events) == TypesIn(old(ledger.events)) + [TypeOf(rawEvent, old(ledger.firstTokenSeen))]
  {
    hide TokenSum, CostSum, AssistantUsage, Count, TypesIn, TypeTold, UsageTaken, CostFits, Counted;
    ghost var before := ledger.events;
    TypesLast(before, TraceEvent(|before| + 1, TypeOf(rawEvent, ledger.firstTokenSeen)));
    ok := ledger.AppendPiEvent(rawEvent);
    if ok && LeavesOrchestrationAlone([rawEvent]) {
      assert [rawEvent][0] == rawEvent;
      QuietAppend(before, ledger.events[|before|]);
    }
  }

  /** One event goes into the ledger, and into the budget unless the runtime has put it there. */
  method AbsorbEvent(rawEvent: PiEvent, accounted: bool, ledger: EventLedger, budget: RunBudget) returns (step: Step)
    modifies ledger, budget
    ensures !step.Cancel? && (step.Throw? ==> Exceeded(budget.Snapshot(), step.code))
    ensures Extends(ledger, budget, LeavesOrchestrationAlone([rawEvent]))
    ensures step.Proceed? ==>
              TakesIn(rawEvent, accounted, old(ledger.usage), ledger.usage, old(budget.Snapshot()), budget.Snapshot())
    ensures ledger.firstTokenSeen <==> old(ledger.firstTokenSeen) || EndsInDelta(rawEvent)
    ensures if step.Crash? then ledger.events == old(ledger.events)
            else TypesIn(ledger.events) == TypesIn(old(ledger.events)) + [TypeOf(rawEvent, old(ledger.firstTokenSeen))]
  {
    hide Recorded, TokenSum, CostSum, Remaining, Count, TypesIn, EndsInDelta, Reports, TypeOf, Exceeded, Within,
         Bounded, Numbered, LeavesOrchestrationAlone;
    var ok := AppendEvent(rawEvent, ledger);
    if !ok {
      return Crash;
    }
    if !accounted {
      var thrown := budget.RecordPiEvent(rawEvent);
      if thrown.Some? {
        return Throw(thrown.value);
      }
    }
    return Proceed;
  }

  /** The trace has grown by these provider events, each under its type. */
  predicate Traced(before: seq<TraceEvent>, seen: bool, part: seq<PiEvent>, after: seq<TraceEvent>) {
    TypesIn(after) == TypesIn(before) + TypesOf(part, seen)
  }

  lemma NothingTraced(events: seq<TraceEvent>, seen: bool)
    ensures Traced(events, seen, [], events) && (SeenAfter([], seen) <==> seen)
  {
  }

  lemma TracedOneMore(before: seq<TraceEvent>, seen: bool, stream: seq<PiEvent>, n: nat, log: seq<TraceEvent>,
                      after: seq<TraceEvent>)
    requires n < |stream| && Traced(before, seen, stream[..n], log)
    requires TypesIn(after) == TypesIn(log) + [TypeOf(stream[n], SeenAfter(stream[..n], seen))]
    ensures Traced(before, seen, stream[..n + 1], after)
    ensures SeenAfter(stream[..n + 1], seen) <==> SeenAfter(stream[..n], seen) || EndsInDelta(stream[n])
  {
    hide TypesIn, TypeOf, EndsInDelta, SeenAfter, TypesOf;
    TypesOneMore(stream, n, seen);
  }

  /** The loop over the events of a result. */
  method AbsorbEvents(world: World, tick: nat, result: RuntimeResult, ledger: EventLedger, budget: RunBudget)
    returns (step: Step, next: nat, ghost part: seq<PiEvent>)
    modifies ledger, budget
    ensures Extends(ledger, budget, LeavesOrchestrationAlone(result.events))
    ensures part <= result.events && Traced(old(ledger.events), old(ledger.firstTokenSeen), part, ledger.events)
    ensures step.Proceed? ==>
              part == result.events && ledger.firstTokenSeen == SeenAfter(part, old(ledger.firstTokenSeen))
    ensures next >= tick && (step.Proceed? ==> next == tick + |result.events|)
    ensures step.Cancel? ==> next > tick && world.signals(next - 1).Aborted()
    ensures step.Proceed? && next > tick ==> !world.signals(next - 1).Aborted()
    ensures step.Throw? ==> Exceeded(budget.Snapshot(), step.code) || TimedOut(world, next, step.code)
    ensures step.Proceed? ==>
              Absorbed(result.events, result.accounted, old(ledger.usage), ledger.usage, old(budget.Snapshot()),
                       budget.Snapshot())
  {
    hide TokenSum, CostSum, Count, Within, Bounded, Recorded, Spent, Exceeded, Starts, Absorbed, TakesIn, Traced,
         TypesIn, TypeOf, EndsInDelta, SeenAfter;
    step, next, part := Proceed, tick, [];
    ghost var events, seen := ledger.events, ledger.firstTokenSeen;
    NothingTraced(events, seen);
    ghost var usage, before := ledger.usage, budget.Snapshot();
    NothingAbsorbed(result.accounted, usage, before);
    assert result.events[..0] == [];
    for n := 0 to |result.events|
      invariant step.Proceed? && next == tick + n
      invariant next > tick ==> !world.signals(next - 1).Aborted()
      invariant Extends(ledger, budget, LeavesOrchestrationAlone(result.events))
      invariant part == result.events[..n] && ledger.firstTokenSeen == SeenAfter(part, seen)
      invariant Traced(events, seen, part, ledger.events)
      invariant Absorbed(result.events[..n], result.accounted, usage, ledger.usage, before, budget.Snapshot())
    {
      step, next := ReadSignal(world, next);
      if !step.Proceed? {
        return;
      }
      ghost var u, c, log := ledger.usage, budget.Snapshot(), ledger.events;
      step := AbsorbEvent(result.events[n], result.accounted, ledger, budget);
      if !step.Crash? {
        TracedOneMore(events, seen, result.events, n, log, ledger.events);
        part := result.events[..n + 1];
      }
      if !step.Proceed? {
        return;
      }
      AbsorbedOneMore(result.events, n, result.accounted, usage, before, u, c, ledger.usage, budget.Snapshot());
    }
    assert result.events[..|result.events|] == result.events;
  }

  lemma TighteningKeepsSpent(b: Budget, maxCostUsd: real)
    requires Remaining(b).Some?
    ensures Remaining(Limited(b, maxCostUsd)).Some?
  {
  }

  /** What a call that returns has done to the budget: its own bookkeeping, or nothing. */
  ghost predicate CallAccounts(r: RuntimeResult, before: Budget, after: Budget) {
    if r.accounted then Accounts(r, before, after) else after == before
  }

  /** What an exception that is neither a workflow error nor an abort counts as. */
  const UNKNOWN_FAILURE := RuntimeResult(Failure(ProviderFailure, RuntimeFailed), [], None, false)

  /** The result of a call that goes on to a decision: what it returned, or a provider failure for an unknown error. */
  predicate ResultOf(r: Runtime, result: RuntimeResult) {
    match r
    case Pi(provider) => result.accounted && result.ending == EndingOf(provider) && result.events <= provider.events
    case Plain(PlainReturns(ending, events, maxCostUsd)) => result == RuntimeResult(ending, events, maxCostUsd, false)
    case Plain(PlainThrows(error)) => error.OtherError? && result == UNKNOWN_FAILURE
  }

  /** What the runtime's call streams, if it streams at all. */
  function StreamOf(r: Runtime): seq<PiEvent> {
    match r
    case Pi(provider) => provider.events
    case Plain(PlainReturns(_, events, _)) => events
    case Plain(PlainThrows(_)) => []
  }

  lemma ResultIsOfStream(r: Runtime, result: RuntimeResult)
    requires ResultOf(r, result)
    ensures result.events <= StreamOf(r)
  {
  }

  /** Every attempt has the result of its own call. */
  ghost predicate ResultsOf(world: World, attempts: seq<Attempt>) {
    forall i :: 0 <= i < |attempts| ==> ResultOf(world.attempts(i), attempts[i].result)
  }

  /** An unknown error that the call lets out. */
  predicate Throws(r: Runtime) {
    r.Plain? && r.called.PlainThrows?
  }

  /** How often the signals are read for an attempt that comes to a decision: around the call and before each event. */
  function ReadsFor(r: Runtime, result: RuntimeResult): nat {
    2 + |result.events| + if Throws(r) then 2 else 0
  }

  /** And how often for all of them. */
  function Reads(world: World, attempts: seq<Attempt>): nat {
    if attempts == [] then 0
    else
      var n := |attempts| - 1;
      Reads(world, attempts[..n]) + ReadsFor(world.attempts(n), attempts[n].result)
  }

  lemma ReadsGrow(world: World, attempts: seq<Attempt>, a: Attempt)
    ensures Reads(world, attempts + [a]) == Reads(world, attempts) + ReadsFor(world.attempts(|attempts|), a.result)
  {
    assert (attempts + [a])[..|attempts|] == attempts;
  }

  /** The runtime call with its catch clause: an unknown error counts as a failure of the provider. */
  method CallRuntime(world: World, tick: nat, n: nat, budget: RunBudget)
    returns (step: Step, result: RuntimeResult, next: nat)
    modifies budget
    ensures OnlyTightens(old(budget.Snapshot()), budget.Snapshot())
    ensures next >= tick && !step.Crash?
    ensures step.Proceed? ==> next == tick + if Throws(world.attempts(n)) then 2 else 0
    ensures step.Cancel? ==> (next > tick && world.signals(next - 1).Aborted()) || AbortsRun(world.attempts(n))
    ensures step.Throw? ==> ThrowReason(world, n, next, budget.Snapshot(), step.code)
    ensures step.Proceed? ==> ResultOf(world.attempts(n), result)
    ensures world.attempts(n).Plain? && world.attempts(n).called.PlainReturns? ==> step.Proceed?
    ensures step.Proceed? ==> CallAccounts(result, old(budget.Snapshot()), budget.Snapshot())
    ensures step.Proceed? ==> budget.Snapshot() == AfterRuntime(world.attempts(n),
                                                                   old(budget.Snapshot()), result.events)
    ensures step.Proceed? && RuntimeLeavesAlone(world.attempts(n)) ==> LeavesOrchestrationAlone(result.events)
    ensures step.Proceed? && !RuntimeRefuses(world.attempts(n), old(budget.Snapshot())) ==>
              && budget.turns == old(budget.turns) + (if result.accounted then TurnsTaken(result) else 0)
              && budget.tools
                 == old(budget.tools) + (if result.accounted then Starts(result.events, ToolExecutionStart) else 0)
    ensures step.Proceed? && RuntimeRefuses(world.attempts(n), old(budget.Snapshot())) ==>
              result.accounted && !result.ending.Success? && Remaining(budget.Snapshot()).Some?
  {
    hide Within, TokenSum, CostSum, Remaining, Refuses, AfterCall, LimitMet, Exceeded, Starts;
    var called: Called;
    match world.attempts(n) {
      case Pi(provider) =>
        var refused;
        called, refused := RunStructured(provider, budget);
      case Plain(PlainReturns(ending, events, maxCostUsd)) =>
        called := Returned(RuntimeResult(ending, events, maxCostUsd, false));
      case Plain(PlainThrows(error)) =>
        called := Threw(error);
    }
    result := UNKNOWN_FAILURE;
    if called.Returned? {
      return Proceed, called.result, tick;
    }
    step, next := ReadSignal(world, tick);
    if !step.Proceed? {
      return;
    }
    if called.error.Workflow? {
      return Throw(called.error.code), result, next;
    }
    var now := world.signals(next);
    next := next + 1;
    if now.Aborted() || called.error.Abort? {
      return Cancel, result, next;
    }
    return Proceed, result, next;
  }

  /** What ledger and budget have taken in of a result, whoever recorded its events. */
  twostate predicate TakenIn(result: RuntimeResult, ledger: EventLedger, budget: RunBudget)
    reads ledger, budget
  {
    && ledger.usage.totalTokens == old(ledger.usage).totalTokens + TokenSum(result.events)
    && ledger.usage.costUsd == old(ledger.usage).costUsd + CostSum(result.events)
    && budget.totalTokens == old(budget.totalTokens) + TokenSum(result.events)
    && budget.costUsd == old(budget.costUsd) + CostSum(result.events)
    && OnlyTightens(old(budget.Snapshot()), budget.Snapshot())
    && (result.maxCostUsd.Some? ==> LimitedBy(budget.Snapshot(), result.maxCostUsd.value))
    && (result.ending.Success? ==> Within(budget.Snapshot()))
  }

  /**
   * `checkSignal`: goes on exactly when nothing has fired and time is left, stops exactly for the user, and else
   * throws a timeout.
   */
  method ReadSignal(world: World, tick: nat) returns (step: Step, next: nat)
    ensures next == tick + 1
    ensures step.Proceed? <==> !world.signals(tick).Aborted() && !world.signals(tick).overtime
    ensures step.Cancel? <==> world.signals(tick).user
    ensures !step.Proceed? && !step.Cancel? ==>
              step == Throw(TimeoutExceeded) && (world.signals(tick).deadline || world.signals(tick).overtime)
  {
    var s := world.signals(tick);
    next := tick + 1;
    if s.deadline && !s.user {
      return Throw(TimeoutExceeded), next;
    }
    if s.Aborted() {
      return Cancel, next;
    }
    if s.overtime {
      return Throw(TimeoutExceeded), next;
    }
    step := Proceed;
  }

  /** After the call: signal, cost limit, events. */
  method TakeResult(world: World, tick: nat, result: RuntimeResult, ledger: EventLedger, budget: RunBudget)
    returns (step: Step, next: nat, ghost part: seq<PiEvent>)
    modifies ledger, budget
    ensures Extends(ledger, budget, LeavesOrchestrationAlone(result.events))
    ensures part <= result.events && Traced(old(ledger.events), old(ledger.firstTokenSeen), part, ledger.events)
    ensures step.Proceed? ==>
              part == result.events && ledger.firstTokenSeen == SeenAfter(part, old(ledger.firstTokenSeen))
    ensures next > tick && (step.Proceed? ==> next == tick + 1 + |result.events|)
    ensures step.Cancel? ==> world.signals(next - 1).Aborted()
    ensures step.Proceed? ==> !world.signals(next - 1).Aborted()
    ensures step.Throw? ==> Exceeded(budget.Snapshot(), step.code) || TimedOut(world, next, step.code)
    ensures step.Proceed? ==>
              var b := old(budget.Snapshot());
              var limited := if result.maxCostUsd.Some? then Limited(b, result.maxCostUsd.value) else b;
              budget.Snapshot() == if result.accounted then limited else Spent(limited, result.events)
    ensures step.Proceed? ==>
              && ledger.usage.totalTokens == old(ledger.usage).totalTokens + TokenSum(result.events)
              && ledger.usage.costUsd == old(ledger.usage).costUsd + CostSum(result.events)
              && (result.maxCostUsd.Some? ==> LimitedBy(budget.Snapshot(), result.maxCostUsd.value))
              && LimitedThenFollows(result, old(budget.Snapshot()), budget.Snapshot())
              && CountsFollow(old(budget.Snapshot()), budget.Snapshot(), result.events, result.accounted)
              && (Within(old(budget.Snapshot())) ==> Within(budget.Snapshot()))
  {
    hide TokenSum, CostSum, Remaining, Count, Exceeded, Spent, Starts, Traced, SeenAfter;
    part := [];
    NothingTraced(ledger.events, ledger.firstTokenSeen);
    step, next := ReadSignal(world, tick);
    if !step.Proceed? {
      return;
    }
    if result.maxCostUsd.Some? {
      var thrown := budget.SetCostLimit(result.maxCostUsd.value);
      if thrown.Some? {
        return Throw(thrown.value), next, [];
      }
    }
    step, next, part := AbsorbEvents(world, next, result, ledger, budget);
  }

  /** The route's own limit is set first, then the events are recorded unless they were accounted for. */
  predicate LimitedThenFollows(result: RuntimeResult, before: Budget, after: Budget) {
    var limited := if result.maxCostUsd.Some? then Limited(before, result.maxCostUsd.value) else before;
    BudgetFollows(limited, after, TokenSum(result.events), CostSum(result.events), result.accounted)
  }

  /** One turn of the loop up to the decision: signal, preflight, call, then what the call returned. */
  method TryAttempt(world: World, tick: nat, n: nat, ledger: EventLedger, budget: RunBudget)
    returns (step: Step, result: RuntimeResult, next: nat, called: bool, ghost part: seq<PiEvent>)
    modifies ledger, budget
    ensures Extends(ledger, budget, RuntimeLeavesAlone(world.attempts(n)))
    ensures part <= StreamOf(world.attempts(n))
    ensures Traced(old(ledger.events), old(ledger.firstTokenSeen), part, ledger.events)
    ensures step.Proceed? ==>
              part == result.events && ledger.firstTokenSeen == SeenAfter(part, old(ledger.firstTokenSeen))
    ensures next > tick && (step.Proceed? ==> next == tick + ReadsFor(world.attempts(n), result))
    ensures step.Cancel? ==> world.signals(next - 1).Aborted() || AbortsRun(world.attempts(n))
    ensures step.Throw? ==> ThrowReason(world, n, next, budget.Snapshot(), step.code)
    ensures step.Proceed? ==> ResultOf(world.attempts(n), result)
    ensures step.Proceed? ==> budget.Snapshot() == BudgetAfter(world.attempts(n), old(budget.Snapshot()), result)
    ensures step.Proceed? ==> called && !world.signals(next - 1).Aborted()
    ensures step.Proceed? ==> TakenIn(result, ledger, budget)
    ensures step.Proceed? && !RuntimeRefuses(world.attempts(n), old(budget.Snapshot())) ==>
              && budget.turns == old(budget.turns) + TurnsTaken(result)
              && budget.tools == old(budget.tools) + Starts(result.events, ToolExecutionStart)
    ensures Remaining(old(budget.Snapshot())).Some? ==> !step.Proceed? && !called
    ensures step.Proceed? && RuntimeRefuses(world.attempts(n), old(budget.Snapshot())) ==>
              !result.ending.Success? && Remaining(budget.Snapshot()).Some?
  {
    hide TokenSum, CostSum, Remaining, Count, RuntimeLeavesAlone, RuntimeRefuses, AbortsRun, ResultOf, AfterRuntime,
         Exceeded, LimitMet, Spent, LeavesOrchestrationAlone, Starts, Traced, SeenAfter;
    called, part := false, [];
    NothingTraced(ledger.events, ledger.firstTokenSeen);
    result := UNKNOWN_FAILURE;
    step, next := ReadSignal(world, tick);
    if !step.Proceed? {
      return;
    }
    var thrown := budget.PreflightAttempt();
    if thrown.Some? {
      return Throw(thrown.value), result, next, called, part;
    }
    called := true;
    ghost var given := budget.Snapshot();
    step, result, next := CallRuntime(world, next, n, budget);
    if !step.Proceed? {
      return;
    }
    if RuntimeRefuses(world.attempts(n), given) && result.maxCostUsd.Some? {
      TighteningKeepsSpent(budget.Snapshot(), result.maxCostUsd.value);
    }
    ResultIsOfStream(world.attempts(n), result);
    step, next, part := TakeResult(world, next, result, ledger, budget);
  }

  // ----- the decision after an attempt -----

  datatype Verdict = Again | Fail(code: WorkflowError) | Succeed(output: Output)

  predicate FailedAs(result: RuntimeResult, kind: FailureKind) {
    result.ending.Failure? && result.ending.kind == kind
  }

  /** The output does not parse, or does not pass the postflight. */
  ghost predicate NeedsCorrection(input: Input, result: RuntimeResult) {
    FailedAs(result, JsonFailure) || (result.ending.Success? && !Acceptable(input, result.ending.output))
  }

  /** What the trace shows of a result: that it needs a correction, or the way in which the next attempt begins. */
  ghost function Mark(input: Input, result: RuntimeResult, next: Option<Phase>): seq<EventType> {
    if NeedsCorrection(input, result) then [SchemaValidationFailed]
    else if next == Some(Retry) then [AutoRetryStart]
    else if next == Some(Fallback) then [ModelFallback]
    else []
  }

  /** A delta has been seen in one of the attempts. */
  predicate SeenIn(attempts: seq<Attempt>) {
    exists i :: 0 <= i < |attempts| && SeenAfter(attempts[i].result.events, false)
  }

  /**
   * The history of a run as its trace tells it: the opening, then for each attempt the events of its provider, the
   * end of the retry if it was one, and the mark of its result; `next` is the phase that follows, if any.
   */
  ghost function Told(input: Input, attempts: seq<Attempt>, next: Option<Phase>): seq<EventType> {
    if attempts == [] then [RunQueued, AgentStart]
    else
      var before, a := attempts[..|attempts| - 1], attempts[|attempts| - 1];
      Told(input, before, Some(a.phase)) + TypesOf(a.result.events, SeenIn(before))
      + (if a.phase == Retry then [AutoRetryEnd] else []) + Mark(input, a.result, next)
  }

  lemma ToldGrows(input: Input, attempts: seq<Attempt>, a: Attempt, next: Option<Phase>)
    ensures Told(input, attempts + [a], next)
         == Told(input, attempts, Some(a.phase)) + TypesOf(a.result.events, SeenIn(attempts))
            + (if a.phase == Retry then [AutoRetryEnd] else []) + Mark(input, a.result, next)
  {
    hide Mark, TypesOf, SeenIn;
    assert (attempts + [a])[..|attempts|] == attempts;
  }

  lemma SeenGrows(attempts: seq<Attempt>, a: Attempt)
    ensures SeenIn(attempts + [a]) <==> SeenAfter(a.result.events, SeenIn(attempts))
  {
    var all := attempts + [a];
    assert all[|attempts|] == a && forall i :: 0 <= i < |attempts| ==> all[i] == attempts[i];
  }

  /** How the trace closes after what it has told. */
  predicate ClosesTrace(told: seq<EventType>, run: RunReceipt) {
    TypesIn(run.receipt.events)
    == told + match run.receipt.status
              case Succeeded => [AgentEnd, AgentSettled, RunSucceeded]
              case Failed => [RunFailed]
              case _ => if told != [] && told[|told| - 1] == RunCancelled then [] else [RunCancelled]
  }

  function AfterAttempt(s: LoopState): LoopState {
    s.(attempt := s.attempt + 1, retryOpen := false)
  }

  /** Spending one of the three allowances. */
  function Correcting(s: LoopState): LoopState { s.(corrected := true, phase := Correction) }

  function Retrying(s: LoopState): LoopState {
    s.(providerRetries := s.providerRetries + 1, phase := Retry, retryOpen := true)
  }

  function FallingBack(s: LoopState): LoopState {
    s.(fallbackCount := s.fallbackCount + 1, routeAttempt := 1, phase := Fallback)
  }

  /** The next state has spent exactly one allowance that was still there. */
  predicate SpendsAllowance(s: LoopState, next: LoopState) {
    var done := AfterAttempt(s);
    || (!s.corrected && next == Correcting(done))
    || (s.providerRetries < s.maxRetries && s.routeAttempt == 0 && next == Retrying(done))
    || (s.fallbackCount < MAX_FALLBACKS && s.routeAttempt == 0 && next == FallingBack(done))
  }

  /** Each way round the loop spends an allowance that was still there, so the next phase is a new one. */
  lemma AllowanceSpent(s: LoopState, next: LoopState, attempts: seq<Attempt>, a: Attempt)
    requires PhasesSpent(s, attempts) && a.phase == s.phase && a.number == s.attempt && a.routeAttempt == s.routeAttempt
    requires SpendsAllowance(s, next)
    ensures PhasesSpent(next, attempts + [a]) && (next.retryOpen <==> next.phase == Retry)
    ensures Allowances(next) < Allowances(s)
  {
    var begun := Phases(attempts) + [s.phase];
    assert Phases(attempts + [a]) == begun;
    assert next.phase !in begun;
    assert (begun + [next.phase])[0] == begun[0];
    assert forall p :: p in begun + [next.phase] <==> p in begun || p == next.phase;
  }

  /** The error of an output that is rejected for good: its first failure decides. */
  function OutputError(input: Input, output: Output): WorkflowError {
    var failures := FeedbackOf(input, output);
    if failures != [] && failures[0] == UnknownReference then OutputReferenceInvalid else OutputSchemaInvalid
  }

  /** Where an attempt's result leads: to another attempt under one allowance, to an error, or to success. */
  ghost predicate Decides(input: Input, s: LoopState, result: RuntimeResult, next: LoopState, verdict: Verdict) {
    var done := AfterAttempt(s);
    match result.ending
    case Success(output) =>
      if Acceptable(input, output) then next == done && verdict == Succeed(output)
      else if s.corrected then next == done && verdict == Fail(OutputError(input, output))
      else next == Correcting(done) && verdict == Again
    case Failure(JsonFailure, _) =>
      if s.corrected then next == done && verdict == Fail(OutputSchemaInvalid)
      else next == Correcting(done) && verdict == Again
    case Failure(kind, code) =>
      if kind.ProviderFailure? && s.routeAttempt == 0 && s.providerRetries < s.maxRetries then
        next == Retrying(done) && verdict == Again
      else if (kind.ProviderFailure? || kind.TimeoutFailure?) && s.routeAttempt == 0
              && s.fallbackCount < MAX_FALLBACKS then
        next == FallingBack(done) && verdict == Again
      else
        next == done && verdict == Fail(FailureCode(kind, code))
  }

  /** The attempts of a run, each led to by the result of the one before; `last` is what the last result decided. */
  ghost predicate Replays(input: Input, attempts: seq<Attempt>, states: seq<LoopState>, last: Verdict) {
    && |states| == |attempts| + 1
    && (forall i :: 0 <= i < |attempts| ==>
          attempts[i] == Attempt(states[i].attempt, states[i].routeAttempt, states[i].phase, attempts[i].given,
                                 attempts[i].result))
    && (forall i :: 0 <= i < |attempts| - 1 ==> Decides(input, states[i], attempts[i].result, states[i + 1], Again))
    && (attempts != [] ==>
          Decides(input, states[|attempts| - 1], attempts[|attempts| - 1].result, states[|attempts|], last))
    && (attempts == [] ==> last == Again)
  }

  lemma ReplaysOn(input: Input, attempts: seq<Attempt>, states: seq<LoopState>, a: Attempt,
                  next: LoopState, verdict: Verdict)
    requires Replays(input, attempts, states, Again)
    requires var s := states[|attempts|];
             a == Attempt(s.attempt, s.routeAttempt, s.phase, a.given, a.result)
             && Decides(input, s, a.result, next, verdict)
    ensures Replays(input, attempts + [a], states + [next], verdict) && |states| == |attempts| + 1
  {
    hide Decides;
    var all, after := attempts + [a], states + [next];
    forall i | 0 <= i < |all| - 1 ensures Decides(input, after[i], all[i].result, after[i + 1], Again) {
      assert all[i] == attempts[i] && after[i] == states[i] && after[i + 1] == states[i + 1];
    }
  }

  /** The mark of a result, by what has been decided on it. */
  function AfterMark(wrong: bool, verdict: Verdict, next: LoopState): seq<EventType> {
    if wrong then [SchemaValidationFailed]
    else if verdict.Again? && next.phase == Retry then [AutoRetryStart]
    else if verdict.Again? && next.phase == Fallback then [ModelFallback]
    else []
  }

  /** Which allowance a failure uses, and the error when there is none left for it. */
  predicate FailureDecided(s: LoopState, kind: FailureKind, code: WorkflowError, next: LoopState, verdict: Verdict) {
    && !verdict.Succeed? && (verdict.Fail? ==> next == s)
    && (verdict == Fail(if kind.JsonFailure? then OutputSchemaInvalid else FailureCode(kind, code)) || verdict == Again)
    && (kind.JsonFailure? ==> (verdict.Again? <==> !s.corrected) && (verdict.Again? ==> next == Correcting(s)))
    && (kind.ProviderFailure? ==>
          && (verdict.Again? <==>
                s.routeAttempt == 0 && (s.providerRetries < s.maxRetries || s.fallbackCount < MAX_FALLBACKS))
          && (verdict.Again? ==> next == if s.providerRetries < s.maxRetries then Retrying(s) else FallingBack(s)))
    && (kind.TimeoutFailure? ==>
          && (verdict.Again? <==> s.routeAttempt == 0 && s.fallbackCount < MAX_FALLBACKS)
          && (verdict.Again? ==> next == FallingBack(s)))
    && (kind.BudgetFailure? || kind.RouteFailure? ==> verdict.Fail?)
  }

  /** A failed attempt: each kind of failure has its own allowance, used when it is left. */
  method AfterFailure(s: LoopState, kind: FailureKind, code: WorkflowError, ledger: EventLedger)
    returns (next: LoopState, verdict: Verdict)
    requires !s.retryOpen
    modifies ledger`events
    ensures old(ledger.events) <= ledger.events && (Numbered(old(ledger.events)) ==> Numbered(ledger.events))
    ensures TraceCounts(s, old(ledger.events)) ==> TraceCounts(next, ledger.events)
    ensures TypesIn(ledger.events) == TypesIn(old(ledger.events)) + AfterMark(kind.JsonFailure?, verdict, next)
    ensures FailureDecided(s, kind, code, next, verdict)
  {
    hide Count, Numbered, TypesIn;
    next := s;
    if kind.JsonFailure? {
      Log(ledger, SchemaValidationFailed);
      if next.corrected {
        return next, Fail(OutputSchemaInvalid);
      }
      next := next.(corrected := true, phase := Correction);
      return next, Again;
    }
    if kind.ProviderFailure? && next.providerRetries < next.maxRetries && next.routeAttempt == 0 {
      next := next.(providerRetries := next.providerRetries + 1, phase := Retry);
      Log(ledger, AutoRetryStart);
      next := next.(retryOpen := true);
      return next, Again;
    }
    if (kind.ProviderFailure? || kind.TimeoutFailure?) && next.routeAttempt == 0 && next.fallbackCount < MAX_FALLBACKS {
      next := next.(fallbackCount := next.fallbackCount + 1, routeAttempt := 1, phase := Fallback);
      Log(ledger, ModelFallback);
      return next, Again;
    }
    verdict := Fail(FailureCode(kind, code));
  }

  /** An output: accepted when it passes the postflight, otherwise corrected once. */
  method AfterOutput(input: Input, s: LoopState, output: Output, ledger: EventLedger)
    returns (next: LoopState, verdict: Verdict)
    requires !s.retryOpen
    modifies ledger`events
    ensures old(ledger.events) <= ledger.events && (Numbered(old(ledger.events)) ==> Numbered(ledger.events))
    ensures TraceCounts(s, old(ledger.events)) ==> TraceCounts(next, ledger.events)
    ensures TypesIn(ledger.events)
         == TypesIn(old(ledger.events)) + if Acceptable(input, output) then [] else [SchemaValidationFailed]
    ensures next == if verdict.Again? then Correcting(s) else s
    ensures if Acceptable(input, output) then verdict == Succeed(output)
            else if s.corrected then verdict == Fail(OutputError(input, output))
            else verdict == Again
  {
    hide Count, Acceptable, Numbered, FeedbackOf, TypesIn, FirstFailure;
    next := s;
    var failures := ValidateRuntimeOutput(input, output);
    if failures != [] {
      Log(ledger, SchemaValidationFailed);
      if next.corrected {
        return next, Fail(if failures[0] == UnknownReference then OutputReferenceInvalid else OutputSchemaInvalid);
      }
      next := next.(corrected := true, phase := Correction);
      return next, Again;
    }
    verdict := Succeed(output);
  }

  /** What a result leads to, put together. */
  ghost predicate ResultDecided(input: Input, s: LoopState, result: RuntimeResult, next: LoopState, verdict: Verdict) {
    && next.providerRetries <= s.maxRetries && next.fallbackCount <= MAX_FALLBACKS
    && Decides(input, s, result, next, verdict)
    && (verdict.Again? ==> SpendsAllowance(s, next))
    && (!verdict.Again? ==> next == AfterAttempt(s))
    && (verdict.Succeed? ==> result.ending == Success(verdict.output) && Acceptable(input, verdict.output))
  }

  lemma FailureLeadsOn(input: Input, s: LoopState, result: RuntimeResult, next: LoopState, verdict: Verdict)
    requires s.providerRetries <= s.maxRetries && s.fallbackCount <= MAX_FALLBACKS && result.ending.Failure?
    requires FailureDecided(AfterAttempt(s), result.ending.kind, result.ending.code, next, verdict)
    ensures ResultDecided(input, s, result, next, verdict)
    ensures AfterMark(result.ending.kind.JsonFailure?, verdict, next)
         == Mark(input, result, if verdict.Again? then Some(next.phase) else None)
  {
    hide FailureCode, Acceptable;
  }

  lemma OutputLeadsOn(input: Input, s: LoopState, result: RuntimeResult, next: LoopState, verdict: Verdict)
    requires s.providerRetries <= s.maxRetries && s.fallbackCount <= MAX_FALLBACKS && result.ending.Success?
    requires next == if verdict.Again? then Correcting(AfterAttempt(s)) else AfterAttempt(s)
    requires var output := result.ending.output;
             if Acceptable(input, output) then verdict == Succeed(output)
             else if s.corrected then verdict == Fail(OutputError(input, output))
             else verdict == Again
    ensures ResultDecided(input, s, result, next, verdict)
    ensures Mark(input, result, if verdict.Again? then Some(next.phase) else None)
         == if Acceptable(input, result.ending.output) then [] else [SchemaValidationFailed]
  {
    hide Acceptable, FeedbackOf;
  }

  /** The rest of the turn: the retry that is still open is closed, then the result decides. */
  method Decide(world: World, s: LoopState, result: RuntimeResult, ledger: EventLedger)
    returns (next: LoopState, verdict: Verdict)
    requires s.providerRetries <= s.maxRetries <= 1 && s.fallbackCount <= MAX_FALLBACKS
    modifies ledger`events
    ensures old(ledger.events) <= ledger.events && (Numbered(old(ledger.events)) ==> Numbered(ledger.events))
    ensures TraceCounts(s, old(ledger.events)) ==> TraceCounts(next, ledger.events)
    ensures TypesIn(ledger.events)
         == TypesIn(old(ledger.events)) + (if s.retryOpen then [AutoRetryEnd] else [])
            + Mark(world.input, result, if verdict.Again? then Some(next.phase) else None)
    ensures ResultDecided(world.input, s, result, next, verdict)
  {
    hide Count, Acceptable, Numbered, Allowances, FailureCode, TypesIn, ResultDecided, Mark, AfterMark, FailureDecided,
         Correcting, OutputError;
    next := s.(attempt := s.attempt + 1);
    if next.retryOpen {
      Log(ledger, AutoRetryEnd);
      next := next.(retryOpen := false);
    }
    match result.ending {
      case Failure(kind, code) =>
        next, verdict := AfterFailure(next, kind, code, ledger);
        FailureLeadsOn(world.input, s, result, next, verdict);
      case Success(output) =>
        next, verdict := AfterOutput(world.input, next, output, ledger);
        OutputLeadsOn(world.input, s, result, next, verdict);
    }
  }

  // ----- the three endings -----

  method CancelledRun(s: LoopState, ledger: EventLedger, budget: RunBudget) returns (run: RunReceipt)
    modifies ledger`events
    ensures run == Metadata(s, ledger.events, ledger.usage, budget.Snapshot(), Cancelled, None, None)
    ensures ClosesTrace(TypesIn(old(ledger.events)), run)
    ensures Numbered(old(ledger.events)) ==> Closed(run.receipt)
    ensures Count(ledger.events, AutoRetryStart) == Count(old(ledger.events), AutoRetryStart)
    ensures Count(ledger.events, ModelFallback) == Count(old(ledger.events), ModelFallback)
  {
    hide Count, Numbered, CodeText;
    if |ledger.events| == 0 || ledger.events[|ledger.events| - 1].eventType != RunCancelled {
      Log(ledger, RunCancelled);
    }
    run := Metadata(s, ledger.events, ledger.usage, budget.Snapshot(), Cancelled, None, None);
  }

  /** The outer catch clause: an aborted signal turns every workflow error into a cancellation. */
  method Caught(world: World, tick: nat, code: WorkflowError, s: LoopState, ledger: EventLedger, budget: RunBudget)
    returns (run: RunReceipt, next: nat)
    modifies ledger`events
    ensures next == tick + 1
    ensures run.receipt.status == if world.signals(tick).Aborted() then Cancelled else Failed
    ensures run == Metadata(s, ledger.events, ledger.usage, budget.Snapshot(), run.receipt.status,
                            if world.signals(tick).Aborted() then None else Some(code), None)
    ensures ClosesTrace(TypesIn(old(ledger.events)), run)
    ensures Numbered(old(ledger.events)) ==> Closed(run.receipt)
    ensures Count(ledger.events, AutoRetryStart) == Count(old(ledger.events), AutoRetryStart)
    ensures Count(ledger.events, ModelFallback) == Count(old(ledger.events), ModelFallback)
  {
    hide Count, Numbered, CodeText;
    next := tick + 1;
    if world.signals(tick).Aborted() {
      run := CancelledRun(s, ledger, budget);
      return;
    }
    Log(ledger, RunFailed);
    run := Metadata(s, ledger.events, ledger.usage, budget.Snapshot(), Failed, Some(code), None);
  }

  lemma MetadataShows(s: LoopState, events: seq<TraceEvent>, usage: Usage, b: Budget, status: RunStatus,
                      errorCode: Option<WorkflowError>, output: Option<Output>)
    ensures var receipt := Metadata(s, events, usage, b, status, errorCode, output).receipt;
            receipt.events == events && receipt.status == status
  {
  }

  lemma MetadataCloses(s: LoopState, events: seq<TraceEvent>, usage: Usage, b: Budget, status: RunStatus,
                       errorCode: Option<WorkflowError>, output: Option<Output>)
    requires Numbered(events) && EndsAs(events, status)
    ensures Closed(Metadata(s, events, usage, b, status, errorCode, output).receipt)
  {
    hide Numbered, EndsAs;
  }

  /** The two events before the last. */
  method LogEnd(ledger: EventLedger)
    modifies ledger`events
    ensures TypesIn(ledger.events) == TypesIn(old(ledger.events)) + [AgentEnd, AgentSettled]
    ensures Numbered(old(ledger.events)) ==> Numbered(ledger.events)
    ensures Count(ledger.events, AutoRetryStart) == Count(old(ledger.events), AutoRetryStart)
    ensures Count(ledger.events, AutoRetryEnd) == Count(old(ledger.events), AutoRetryEnd)
    ensures Count(ledger.events, ModelFallback) == Count(old(ledger.events), ModelFallback)
  {
    hide Count, Numbered, TypesIn;
    Log(ledger, AgentEnd);
    Log(ledger, AgentSettled);
  }

  method SucceededRun(s: LoopState, output: Output, ledger: EventLedger, budget: RunBudget) returns (run: RunReceipt)
    modifies ledger`events
    ensures run == Metadata(s, ledger.events, ledger.usage, budget.Snapshot(), Succeeded, None, Some(output))
    ensures ClosesTrace(TypesIn(old(ledger.events)), run)
    ensures Numbered(old(ledger.events)) ==> Closed(run.receipt)
    ensures Count(ledger.events, AutoRetryStart) == Count(old(ledger.events), AutoRetryStart)
    ensures Count(ledger.events, AutoRetryEnd) == Count(old(ledger.events), AutoRetryEnd)
    ensures Count(ledger.events, ModelFallback) == Count(old(ledger.events), ModelFallback)
  {
    hide Count, Numbered, CodeText, Metadata, Closed, TypesIn;
    LogEnd(ledger);
    Log(ledger, RunSucceeded);
    run := Metadata(s, ledger.events, ledger.usage, budget.Snapshot(), Succeeded, None, Some(output));
    MetadataShows(s, ledger.events, ledger.usage, budget.Snapshot(), Succeeded, None, Some(output));
    if Numbered(old(ledger.events)) {
      MetadataCloses(s, ledger.events, ledger.usage, budget.Snapshot(), Succeeded, None, Some(output));
    }
  }

  // ----- the loop -----

  /** The counters and the trace agree on how often the run was retried and fell back. */
  predicate CountersShown(s: LoopState, events: seq<TraceEvent>) {
    Count(events, AutoRetryStart) == s.providerRetries && Count(events, ModelFallback) == s.fallbackCount
  }

  lemma MetadataSound(world: World, s: LoopState, run: RunReceipt, b: Budget,
                      errorCode: Option<WorkflowError>, output: Option<Output>)
    requires run == Metadata(s, run.receipt.events, run.usage, b, run.receipt.status, errorCode, output)
    requires Closed(run.receipt) && (run.receipt.status == Succeeded <==> output.Some?)
    requires Bounded(b) && s.providerRetries <= 1 && s.fallbackCount <= MAX_FALLBACKS
    requires WorldLeavesAlone(world) ==> CountersShown(s, run.receipt.events)
    ensures ReceiptSound(world, run)
  {
    hide Count, Closed;
  }

  /** Between two attempts the ledger and the budget stay level. */
  lemma SettledGrows(attempts: seq<Attempt>, a: Attempt, usage: Usage, b: Budget, usage': Usage, b': Budget)
    requires Settled(attempts, usage, b)
    requires usage'.totalTokens == usage.totalTokens + TokenSum(a.result.events)
    requires usage'.costUsd == usage.costUsd + CostSum(a.result.events)
    requires b'.totalTokens == b.totalTokens + TokenSum(a.result.events)
    requires b'.costUsd == b.costUsd + CostSum(a.result.events)
    requires OnlyTightens(b, b') && (a.result.maxCostUsd.Some? ==> LimitedBy(b', a.result.maxCostUsd.value))
    ensures Settled(attempts + [a], usage', b')
  {
    hide TokenSum, CostSum;
    SumsGrow(attempts, a);
    var all := attempts + [a];
    forall i | 0 <= i < |all| && all[i].result.maxCostUsd.Some? ensures LimitedBy(b', all[i].result.maxCostUsd.value) {
      if i < |attempts| { assert all[i] == attempts[i]; }
    }
  }

  lemma SuccessFacts(world: World, s: LoopState, run: RunReceipt, attempts: seq<Attempt>, usage: Usage,
                     b: Budget, output: Output)
    requires run == Metadata(s, run.receipt.events, usage, b, Succeeded, None, Some(output))
    requires attempts != [] && attempts[|attempts| - 1].result.ending == Success(output)
    requires Acceptable(world.input, output)
    requires Settled(attempts, usage, b) && Within(b)
    requires WorldLeavesAlone(world) ==> TraceCounts(s, run.receipt.events) && !s.retryOpen
    ensures SuccessSound(world, run, attempts)
  {
    hide Tokens, Cost, Acceptable, Count;
    forall i | 0 <= i < |attempts| && attempts[i].result.maxCostUsd.Some?
      ensures run.usage.costUsd <= attempts[i].result.maxCostUsd.value
    {
      assert LimitedBy(b, attempts[i].result.maxCostUsd.value);
    }
  }

  /** Why a cancelled receipt came out: a fired signal was read last, or the runtime aborted of itself. */
  ghost predicate AbortSeen(world: World, ticks: nat, attempts: seq<Attempt>) {
    (ticks > 0 && world.signals(ticks - 1).Aborted()) || AbortsRun(world.attempts(|attempts|))
  }

  /** What is true of every ending of the loop. */
  ghost predicate EndsWell(world: World, run: RunReceipt, attempts: seq<Attempt>, ticks: nat) {
    && ReceiptSound(world, run)
    && (run.receipt.status == Succeeded ==> SuccessSound(world, run, attempts))
    && (run.receipt.status == Cancelled ==> AbortSeen(world, ticks, attempts))
    && (run.receipt.status != Cancelled ==> ticks > 0 && !world.signals(ticks - 1).Aborted())
  }

  /** A run that is not cancelled never read a fired signal, if fired signals stay fired. */
  lemma NotCancelledNeverAborted(world: World, run: RunReceipt, attempts: seq<Attempt>, ticks: nat)
    requires EndsWell(world, run, attempts, ticks) && Sticky(world.signals) && run.receipt.status != Cancelled
    ensures forall t: nat :: t < ticks ==> !world.signals(t).Aborted()
  {
    hide ReceiptSound, SuccessSound;
    forall t: nat | t < ticks ensures !world.signals(t).Aborted() {
      assert t <= ticks - 1;
    }
  }

  /** The attempts of a run, in order: their phases are all different, so there are at most four. */
  ghost predicate AttemptsInOrder(attempts: seq<Attempt>) {
    && NoDup(Phases(attempts)) && (attempts != [] ==> attempts[0].phase == Initial)
    && forall i :: 0 <= i < |attempts| ==> attempts[i].number == i
  }

  lemma SpentIsInOrder(s: LoopState, attempts: seq<Attempt>)
    requires PhasesSpent(s, attempts)
    ensures AttemptsInOrder(attempts) && |attempts| <= 3
    ensures s.providerRetries <= s.maxRetries <= 1 && s.fallbackCount <= MAX_FALLBACKS && s.attempt == |attempts|
  {
    var begun := Phases(attempts) + [s.phase];
    AtMostFour(begun);
    assert forall i :: 0 <= i < |attempts| ==> begun[i] == attempts[i].phase;
  }

  lemma DoneIsInOrder(s: LoopState, attempts: seq<Attempt>, a: Attempt)
    requires PhasesSpent(s, attempts) && a.phase == s.phase && a.number == s.attempt
    ensures AttemptsInOrder(attempts + [a]) && |attempts + [a]| <= 4
  {
    var begun := Phases(attempts) + [s.phase];
    AtMostFour(begun);
    assert Phases(attempts + [a]) == begun;
    assert forall i :: 0 <= i < |attempts| ==> begun[i] == attempts[i].phase;
  }

  /** The opening of the trace and the loop's first state. */
  method Begin(world: World) returns (ledger: EventLedger, budget: RunBudget, s: LoopState)
    ensures fresh(ledger) && fresh(budget)
    ensures Numbered(ledger.events) && TraceCounts(s, ledger.events)
    ensures s == StartState(world)
    ensures TypesIn(ledger.events) == [RunQueued, AgentStart] && !ledger.firstTokenSeen
    ensures budget.Snapshot() == FRESH_BUDGET
    ensures PhasesSpent(s, []) && Settled([], ledger.usage, budget.Snapshot()) && Bounded(budget.Snapshot())
  {
    hide Numbered, TypesIn, Count, PhasesSpent, Settled, Bounded;
    NothingBegun(world);
    ledger := new EventLedger();
    budget := new RunBudget();
    Log(ledger, RunQueued);
    Log(ledger, AgentStart);
    var retries := if world.retryCount < 0 then 0 else if world.retryCount > 1 then 1 else world.retryCount;
    s := LoopState(Initial, 0, 0, 0, retries, 0, false, false);
  }

  lemma NothingBegun(world: World)
    ensures PhasesSpent(StartState(world), []) && Settled([], NO_USAGE, FRESH_BUDGET) && Bounded(FRESH_BUDGET)
    ensures Numbered([]) && TypesIn([]) == [] && forall t :: Count([], t) == 0
  {
    assert Phases([]) + [Initial] == [Initial];
  }

  lemma CountsUntouched(s: LoopState, before: seq<TraceEvent>, after: seq<TraceEvent>)
    requires TraceCounts(s, before)
    requires Count(after, AutoRetryStart) == Count(before, AutoRetryStart)
    requires Count(after, AutoRetryEnd) == Count(before, AutoRetryEnd)
    requires Count(after, ModelFallback) == Count(before, ModelFallback)
    ensures TraceCounts(s, after)
  {
    hide Count;
  }

  /** An attempt that was cancelled or that threw ends the run. */
  method Interrupted(world: World, tick: nat, step: Step, s: LoopState, ledger: EventLedger, budget: RunBudget,
                     ghost attempts: seq<Attempt>)
    returns (run: RunReceipt, next: nat)
    requires step.Cancel? || step.Throw?
    requires step.Cancel? ==> AbortSeen(world, tick, attempts)
    requires s.providerRetries <= 1 && s.fallbackCount <= MAX_FALLBACKS
    requires Numbered(ledger.events) && Bounded(budget.Snapshot())
    requires WorldLeavesAlone(world) ==> TraceCounts(s, ledger.events)
    modifies ledger`events
    ensures EndsWell(world, run, attempts, next) && run.receipt.status != Succeeded && next >= tick
    ensures ClosesTrace(TypesIn(old(ledger.events)), run)
    ensures run.turnCount == budget.turns && run.toolCallCount == budget.tools
    ensures run.receipt.status == Failed ==>
              next == tick + 1 && step.Throw? && run.receipt.errorCode == Some(CodeText(step.code))
  {
    hide Count, Closed, ReceiptSound, SuccessSound, ClosesTrace, TypesIn;
    next := tick;
    if step.Cancel? {
      run := CancelledRun(s, ledger, budget);
      MetadataSound(world, s, run, budget.Snapshot(), None, None);
      return;
    }
    run, next := Caught(world, tick, step.code, s, ledger, budget);
    MetadataSound(world, s, run, budget.Snapshot(),
                  if run.receipt.status == Failed then Some(step.code) else None, None);
  }

  /** The attempt met a limit within its own stream, at the last event or before, and reported it as a timeout. */
  ghost predicate HitLimit(world: World, a: Attempt) {
    RuntimeRefuses(world.attempts(a.number), a.given)
  }

  /** Such an attempt can only be the last: the next preflight finds the limit spent. */
  ghost predicate LimitsStop(world: World, attempts: seq<Attempt>) {
    forall i :: 0 <= i < |attempts| && HitLimit(world, attempts[i]) ==> i == |attempts| - 1
  }

  lemma LimitsStopGrows(world: World, attempts: seq<Attempt>, a: Attempt)
    requires LimitsStop(world, attempts) && (attempts != [] ==> !HitLimit(world, attempts[|attempts| - 1]))
    ensures LimitsStop(world, attempts + [a])
  {
    hide HitLimit;
  }

  /** What holds whenever the loop comes round. */
  ghost predicate Between(world: World, s: LoopState, attempts: seq<Attempt>, events: seq<TraceEvent>, usage: Usage,
                          b: Budget)
  {
    && PhasesSpent(s, attempts)
    && Numbered(events) && (WorldLeavesAlone(world) ==> TraceCounts(s, events))
    && Settled(attempts, usage, b) && Bounded(b)
    && LimitsStop(world, attempts) && BudgetsFollow(world, attempts, b) && ResultsOf(world, attempts)
    && TypesIn(events) == Told(world.input, attempts, Some(s.phase)) && (s.retryOpen <==> s.phase == Retry)
    && (if attempts != [] && HitLimit(world, attempts[|attempts| - 1]) then Remaining(b).Some?
        else CountsAll(attempts, b))
  }

  /** The attempts with one more that has come to a result, before the result decides. */
  ghost predicate Attempted(world: World, attempts: seq<Attempt>, a: Attempt, usage: Usage, b: Budget) {
    var done := attempts + [a];
    && AttemptsInOrder(done) && |done| <= 4 && ResultsOf(world, done) && BudgetsFollow(world, done, b)
    && Settled(done, usage, b) && Bounded(b) && (a.result.ending.Success? ==> Within(b))
    && LimitsStop(world, done)
    && (if HitLimit(world, a) then !a.result.ending.Success? && Remaining(b).Some? else CountsAll(done, b))
  }

  /** One attempt with its bookkeeping. */
  method MakeAttempt(world: World, tick: nat, s: LoopState, attempts: seq<Attempt>,
                     ledger: EventLedger, budget: RunBudget)
    returns (step: Step, attempt: Attempt, next: nat, called: bool, ghost part: seq<PiEvent>)
    requires Between(world, s, attempts, ledger.events, ledger.usage, budget.Snapshot())
    requires ledger.firstTokenSeen == SeenIn(attempts)
    modifies ledger, budget
    ensures next > tick && (step.Proceed? ==> next == tick + ReadsFor(world.attempts(|attempts|), attempt.result))
    ensures |attempts| <= 3 && AttemptsInOrder(attempts) && LimitsStop(world, attempts) && PhasesSpent(s, attempts)
    ensures s.providerRetries <= s.maxRetries <= 1 && s.fallbackCount <= MAX_FALLBACKS
    ensures Numbered(ledger.events) && (WorldLeavesAlone(world) ==> TraceCounts(s, ledger.events))
    ensures Bounded(budget.Snapshot())
    ensures step.Cancel? ==> AbortSeen(world, next, attempts)
    ensures step.Throw? ==> ThrowReason(world, |attempts|, next, budget.Snapshot(), step.code)
    ensures ResultsOf(world, attempts) && BudgetsFollow(world, attempts, old(budget.Snapshot()))
    ensures attempts != [] && HitLimit(world, attempts[|attempts| - 1]) ==> !step.Proceed? && !called
    ensures attempt == Attempt(s.attempt, s.routeAttempt, s.phase, old(budget.Snapshot()), attempt.result)
    ensures part <= StreamOf(world.attempts(|attempts|)) && (s.retryOpen <==> s.phase == Retry)
    ensures TypesIn(ledger.events)
         == Told(world.input, attempts, Some(s.phase)) + TypesOf(part, SeenIn(attempts))
    ensures step.Proceed? ==> part == attempt.result.events && ledger.firstTokenSeen == SeenIn(attempts + [attempt])
    ensures step.Proceed? ==>
              && called && !world.signals(next - 1).Aborted()
              && Attempted(world, attempts, attempt, ledger.usage, budget.Snapshot())
  {
    hide Count, TokenSum, CostSum, Remaining, Tokens, Cost, Settled, Within, PhasesSpent, AttemptsInOrder, Bounded,
         TraceCounts, LimitsStop, ThrowReason, BudgetsFollow, BudgetAfter, ResultOf, RuntimeRefuses, CountsAll,
         TurnsTaken, Starts, TypesIn, TypesOf, Told, SeenIn, SeenAfter, StreamOf, ReadsFor;
    SpentIsInOrder(s, attempts);
    ghost var usageBefore, budgetBefore, eventsBefore := ledger.usage, budget.Snapshot(), ledger.events;
    var result;
    var given := budget.Snapshot();
    step, result, next, called, part := TryAttempt(world, tick, s.attempt, ledger, budget);
    if WorldLeavesAlone(world) {
      CountsUntouched(s, eventsBefore, ledger.events);
    }
    attempt := Attempt(s.attempt, s.routeAttempt, s.phase, given, result);
    if step.Proceed? {
      SeenGrows(attempts, attempt);
      SettledGrows(attempts, attempt, usageBefore, budgetBefore, ledger.usage, budget.Snapshot());
      DoneIsInOrder(s, attempts, attempt);
      LimitsStopGrows(world, attempts, attempt);
      BudgetsGrow(world, attempts, attempt, given, budget.Snapshot());
      if !HitLimit(world, attempt) {
        CountsGrow(attempts, attempt, given, budget.Snapshot());
      }
    }
  }

  lemma NothingDone(world: World)
    ensures !world.inputValid ==> RunIsSound(world, Raised(true), [], 0, 0, [StartState(world)], Again, FRESH_BUDGET)
    ensures Replays(world.input, [], [StartState(world)], Again) && AttemptsInOrder([]) && ResultsOf(world, [])
    ensures LimitsStop(world, []) && BudgetsFollow(world, [], FRESH_BUDGET)
    ensures Told(world.input, [], Some(Initial)) == [RunQueued, AgentStart] && !SeenIn([])
    ensures Reads(world, []) == 0
  {
    assert BudgetsFollow(world, [], FRESH_BUDGET);
  }

  /** The first turn and each further one find the loop as `Between` says. */
  lemma StartsBetween(world: World, s: LoopState, events: seq<TraceEvent>, usage: Usage, b: Budget)
    requires Numbered(events) && TraceCounts(s, events) && s == StartState(world) && b == FRESH_BUDGET
    requires PhasesSpent(s, []) && Settled([], usage, b) && Bounded(b)
    requires TypesIn(events) == [RunQueued, AgentStart]
    ensures Between(world, s, [], events, usage, b) && Underway(world, [], [s], s)
    ensures s.providerRetries <= s.maxRetries <= 1 && s.fallbackCount <= MAX_FALLBACKS
  {
    hide Numbered, TraceCounts, Settled, Bounded;
    NothingDone(world);
  }

  lemma RoundAgain(world: World, s: LoopState, next: LoopState, before: seq<Attempt>, a: Attempt,
                   events: seq<TraceEvent>, usage: Usage, b: Budget)
    requires PhasesSpent(s, before) && a.phase == s.phase && a.number == s.attempt && a.routeAttempt == s.routeAttempt
    requires SpendsAllowance(s, next)
    requires Numbered(events) && (WorldLeavesAlone(world) ==> TraceCounts(next, events))
    requires Attempted(world, before, a, usage, b)
    requires TypesIn(events) == Told(world.input, before + [a], Some(next.phase))
    ensures Between(world, next, before + [a], events, usage, b)
    ensures next.providerRetries <= next.maxRetries && next.fallbackCount <= MAX_FALLBACKS
    ensures Allowances(next) < Allowances(s)
  {
    hide Numbered, TraceCounts, Settled, Bounded, AttemptsInOrder, LimitsStop, BudgetsFollow, ResultsOf, HitLimit,
         Remaining, CountsAll, TypesIn, Told;
    AllowanceSpent(s, next, before, a);
    hide SpendsAllowance;
  }

  /** The attempts so far replay the loop's states, from the first to the present one. */
  ghost predicate Underway(world: World, attempts: seq<Attempt>, states: seq<LoopState>, s: LoopState) {
    Replays(world.input, attempts, states, Again) && states[0] == StartState(world) && states[|attempts|] == s
  }

  lemma UnderwaySays(world: World, attempts: seq<Attempt>, states: seq<LoopState>, s: LoopState)
    requires Underway(world, attempts, states, s)
    ensures Replays(world.input, attempts, states, Again) && states[0] == StartState(world)
    ensures |states| == |attempts| + 1 && states[|attempts|] == s
  {
    hide Decides;
  }

  lemma UnderwayOn(world: World, attempts: seq<Attempt>, states: seq<LoopState>, s: LoopState, a: Attempt,
                   next: LoopState, verdict: Verdict)
    requires Underway(world, attempts, states, s)
    requires a == Attempt(s.attempt, s.routeAttempt, s.phase, a.given, a.result)
    requires Decides(world.input, s, a.result, next, verdict)
    ensures Replays(world.input, attempts + [a], states + [next], verdict) && (states + [next])[0] == StartState(world)
    ensures verdict.Again? ==> Underway(world, attempts + [a], states + [next], next)
  {
    hide Decides;
    ReplaysOn(world.input, attempts, states, a, next, verdict);
  }

  /** The loop's first state. */
  function StartState(world: World): LoopState {
    LoopState(Initial, 0, 0, 0,
              if world.retryCount < 0 then 0 else if world.retryCount > 1 then 1 else world.retryCount,
              0, false, false)
  }

  // ----- why a run goes on, and why it fails -----

  ghost predicate Had(attempts: seq<Attempt>, phase: Phase) {
    exists i :: 0 <= i < |attempts| && attempts[i].phase == phase
  }

  /** What the attempt after this one is for, and on which route it runs. */
  ghost predicate LeadsTo(input: Input, before: seq<Attempt>, maxRetries: nat, a: Attempt, next: Attempt) {
    match next.phase
    case Initial => false
    case Correction => NeedsCorrection(input, a.result) && next.routeAttempt == a.routeAttempt
    case Retry => FailedAs(a.result, ProviderFailure) && a.routeAttempt == next.routeAttempt == 0 && maxRetries > 0
    case Fallback =>
      && (FailedAs(a.result, TimeoutFailure)
          || (FailedAs(a.result, ProviderFailure) && (maxRetries == 0 || Had(before + [a], Retry))))
      && a.routeAttempt == 0 && next.routeAttempt == 1
  }

  function RetriesAllowed(world: World): nat {
    if world.retryCount <= 0 then 0 else 1
  }

  /** Every attempt but the first is there for what the result before it was. */
  ghost predicate EachHasReason(world: World, attempts: seq<Attempt>) {
    && (attempts != [] ==> attempts[0].phase == Initial && attempts[0].routeAttempt == 0)
    && forall i :: 0 <= i < |attempts| - 1 ==>
                     LeadsTo(world.input, attempts[..i], RetriesAllowed(world), attempts[i], attempts[i + 1])
  }

  /** What a failed run shows for the result that ended it. */
  predicate FailureShows(input: Input, result: RuntimeResult, errorCode: Option<string>) {
    match result.ending
    case Success(output) =>
      var failures := FeedbackOf(input, output);
      errorCode == Some(if failures != [] && failures[0] == UnknownReference then "output_reference_invalid"
                        else "output_schema_invalid")
    case Failure(JsonFailure, _) => errorCode == Some("output_schema_invalid")
    case Failure(ProviderFailure, _) => errorCode == Some("runtime_failed")
    case Failure(TimeoutFailure, _) => errorCode == Some("timeout_exceeded")
    case Failure(RouteFailure, _) => errorCode == Some("model_route_unavailable")
    case Failure(BudgetFailure, code) =>
      && (code == TurnLimitExceeded ==> errorCode == Some("turn_limit_exceeded"))
      && (code == ToolLimitExceeded ==> errorCode == Some("tool_limit_exceeded"))
      && (code == TokenLimitExceeded ==> errorCode == Some("token_limit_exceeded"))
      && (code == CostLimitExceeded ==> errorCode == Some("cost_limit_exceeded"))
  }

  /** A result ends the run in failure only when nothing is left that could make up for it. */
  ghost predicate NothingLeft(input: Input, attempts: seq<Attempt>, a: Attempt) {
    && (a.result.ending.Success? ==> !Acceptable(input, a.result.ending.output))
    && (NeedsCorrection(input, a.result) ==> Had(attempts, Correction))
    && (FailedAs(a.result, ProviderFailure) || FailedAs(a.result, TimeoutFailure) ==>
          a.routeAttempt == 1 && Had(attempts, Fallback))
  }

  /** The loop's state has spent only what an attempt was made for. */
  ghost predicate SpentOn(s: LoopState, attempts: seq<Attempt>, world: World) {
    && s.maxRetries == RetriesAllowed(world) && s.providerRetries <= s.maxRetries && s.fallbackCount <= 1
    && s.routeAttempt == s.fallbackCount
    && (s.corrected ==> Had(attempts, Correction) || s.phase == Correction)
    && (s.providerRetries > 0 ==> Had(attempts, Retry) || s.phase == Retry)
    && (s.fallbackCount > 0 ==> Had(attempts, Fallback) || s.phase == Fallback)
    && (attempts == [] ==> s.phase == Initial)
  }

  lemma SpentOnGrows(world: World, s: LoopState, attempts: seq<Attempt>, a: Attempt, next: LoopState, verdict: Verdict)
    requires SpentOn(s, attempts, world)
    requires a == Attempt(s.attempt, s.routeAttempt, s.phase, a.given, a.result)
    requires Decides(world.input, s, a.result, next, verdict)
    ensures verdict.Again? ==> SpentOn(next, attempts + [a], world)
    ensures verdict.Again? ==>
              forall b: Attempt :: b.phase == next.phase && b.routeAttempt == next.routeAttempt ==>
                                     LeadsTo(world.input, attempts, RetriesAllowed(world), a, b)
    ensures verdict.Fail? ==> NothingLeft(world.input, attempts + [a], a)
  {
    hide Acceptable, FailureCode, OutputError;
    var all := attempts + [a];
    assert all[|attempts|] == a;
    assert forall p :: Had(attempts, p) ==> Had(all, p) by {
      assert forall i :: 0 <= i < |attempts| ==> all[i] == attempts[i];
    }
    assert Had(all, s.phase);
  }

  /** All through a run each attempt has its reason, and so has the failure in the end. */
  lemma {:induction false} ReasonsGiven(world: World, attempts: seq<Attempt>, states: seq<LoopState>, last: Verdict)
    requires Replays(world.input, attempts, states, last) && states[0] == StartState(world)
    ensures EachHasReason(world, attempts)
    ensures last.Again? ==> SpentOn(states[|attempts|], attempts, world)
    ensures last.Fail? ==> NothingLeft(world.input, attempts, attempts[|attempts| - 1])
    decreases |attempts|
  {
    hide Decides, LeadsTo, NothingLeft;
    if attempts == [] {
      hide Had;
    } else {
      var n := |attempts| - 1;
      var before, a := attempts[..n], attempts[n];
      assert Replays(world.input, before, states[..n + 1], Again) by {
        PrefixReplays(world.input, attempts, states, last);
      }
      ReasonsGiven(world, before, states[..n + 1], Again);
      hide SpentOn;
      SpentOnGrows(world, states[n], before, a, states[n + 1], last);
      assert before + [a] == attempts;
      forall i | 0 <= i < n
        ensures LeadsTo(world.input, attempts[..i], RetriesAllowed(world), attempts[i], attempts[i + 1])
      {
        assert before[..i] == attempts[..i];
        if i + 1 < n {
          assert LeadsTo(world.input, before[..i], RetriesAllowed(world), before[i], before[i + 1]);
        } else {
          LastLeadsOn(world, before, states[..n + 1], a);
        }
      }
    }
  }

  lemma PrefixReplays(input: Input, attempts: seq<Attempt>, states: seq<LoopState>, last: Verdict)
    requires Replays(input, attempts, states, last) && attempts != []
    ensures Replays(input, attempts[..|attempts| - 1], states[..|attempts|], Again)
  {
    hide Decides;
  }

  /** The attempt after a run so far is there for its last result. */
  lemma LastLeadsOn(world: World, before: seq<Attempt>, states: seq<LoopState>, a: Attempt)
    requires before != [] && Replays(world.input, before, states, Again) && states[0] == StartState(world)
    requires a.phase == states[|before|].phase && a.routeAttempt == states[|before|].routeAttempt
    ensures LeadsTo(world.input, before[..|before| - 1], RetriesAllowed(world), before[|before| - 1], a)
    decreases |before|
  {
    hide Decides, LeadsTo, NothingLeft, SpentOn;
    var n := |before| - 1;
    PrefixReplays(world.input, before, states, Again);
    ReasonsGiven(world, before[..n], states[..n + 1], Again);
    SpentOnGrows(world, states[n], before[..n], before[n], states[n + 1], Again);
  }

  /** How the decision on the last result shows in the receipt; a run that is interrupted never succeeds. */
  ghost predicate EndsAsDecided(out: Outcome, last: Verdict) {
    match last
    case Succeed(output) => out.Settles? && out.run.receipt.status == Succeeded && out.run.output == Some(output)
    case Fail(code) =>
      out.Settles? && (out.run.receipt.status == Cancelled
                       || (out.run.receipt.status == Failed && out.run.receipt.errorCode == Some(CodeText(code))))
    case Again => out.Settles? ==> out.run.receipt.status != Succeeded
  }

  /** An interrupted run fails only for a reason: an unknown prompt, or what its last attempt threw. */
  ghost predicate FailsForReason(world: World, run: RunReceipt, attempts: seq<Attempt>, ticks: nat, final: Budget) {
    if !world.promptKnown then run.receipt.errorCode == Some("prompt_version_unavailable")
    else ticks > 0 && exists code :: run.receipt.errorCode == Some(CodeText(code))
                                     && ThrowReason(world, |attempts|, ticks - 1, final, code)
  }

  lemma DecisionShows(input: Input, s: LoopState, result: RuntimeResult, next: LoopState, verdict: Verdict,
                      run: RunReceipt)
    requires Decides(input, s, result, next, verdict) && EndsAsDecided(Settles(run), verdict)
    ensures verdict.Fail? && run.receipt.status == Failed ==> FailureShows(input, result, run.receipt.errorCode)
  {
    hide Acceptable, FeedbackOf;
  }

  /** A timeout that the loop itself reports means that time was over: a deadline that has fired reads as a cancel. */
  lemma LoopTimeoutIsOvertime(world: World, run: RunReceipt, attempts: seq<Attempt>, ticks: nat)
    requires EndsWell(world, run, attempts, ticks) && run.receipt.status == Failed && Sticky(world.signals)
    requires ticks > 0 && TimedOut(world, ticks - 1, TimeoutExceeded)
    ensures world.signals(ticks - 2).overtime && !world.signals(ticks - 2).Aborted()
  {
    hide ReceiptSound, SuccessSound;
    var t: nat, u: nat := ticks - 2, ticks - 1;
    assert !world.signals(u).Aborted();
  }

  /**
   * An attempt that did not come to a decision ends the run; any other exception is raised unless a signal has fired.
   */
  method Stopped(world: World, tick: nat, step: Step, s: LoopState, ledger: EventLedger, budget: RunBudget,
                 ghost attempts: seq<Attempt>)
    returns (out: Outcome, next: nat)
    requires !step.Proceed?
    requires step.Cancel? ==> AbortSeen(world, tick, attempts)
    requires world.promptKnown && step.Throw? ==> ThrowReason(world, |attempts|, tick, budget.Snapshot(), step.code)
    requires !world.promptKnown ==> step == Throw(PromptVersionUnavailable)
    requires s.providerRetries <= 1 && s.fallbackCount <= MAX_FALLBACKS
    requires Numbered(ledger.events) && Bounded(budget.Snapshot())
    requires WorldLeavesAlone(world) ==> TraceCounts(s, ledger.events)
    modifies ledger`events
    ensures out != Raised(true) && (out.Raised? ==> step.Crash?) && EndsAsDecided(out, Again) && next >= tick
    ensures out.Settles? ==> EndsWell(world, out.run, attempts, next) && out.run.receipt.status != Succeeded
    ensures out.Settles? ==> ClosesTrace(TypesIn(old(ledger.events)), out.run)
    ensures out.Settles? && out.run.receipt.status == Failed ==>
              FailsForReason(world, out.run, attempts, next, budget.Snapshot())
    ensures out.Settles? ==> out.run.turnCount == budget.turns && out.run.toolCallCount == budget.tools
  {
    assert CodeText(PromptVersionUnavailable) == "prompt_version_unavailable";
    hide Numbered, Bounded, TraceCounts, EndsWell, ThrowReason, CodeText, ClosesTrace, TypesIn;
    var ending := step;
    next := tick;
    if step.Crash? {
      next := tick + 1;
      if !world.signals(tick).Aborted() {
        return Raised(false), next;
      }
      ending := Cancel;
    }
    var run;
    run, next := Interrupted(world, next, ending, s, ledger, budget, attempts);
    out := Settles(run);
  }

  /** The receipt's totals, taken from the ledger, are the budget's. */
  predicate SameTotals(usage: Usage, b: Budget) {
    usage.totalTokens == b.totalTokens && usage.costUsd == b.costUsd
  }

  lemma SettledIsLevel(attempts: seq<Attempt>, usage: Usage, b: Budget)
    requires Settled(attempts, usage, b)
    ensures SameTotals(usage, b)
  {
    hide Tokens, Cost;
  }

  /** A decided attempt ends the run: the output is accepted, or no allowance is left. */
  method Concluded(world: World, tick: nat, verdict: Verdict, s: LoopState, ghost attempts: seq<Attempt>,
                   attempt: Attempt, ledger: EventLedger, budget: RunBudget)
    returns (run: RunReceipt, next: nat)
    requires !verdict.Again? && tick > 0 && !world.signals(tick - 1).Aborted()
    requires Attempted(world, attempts, attempt, ledger.usage, budget.Snapshot())
    requires verdict.Succeed? ==>
               attempt.result.ending == Success(verdict.output) && Acceptable(world.input, verdict.output)
    requires s.providerRetries <= 1 && s.fallbackCount <= MAX_FALLBACKS && !s.retryOpen
    requires Numbered(ledger.events)
    requires WorldLeavesAlone(world) ==> TraceCounts(s, ledger.events)
    modifies ledger`events
    ensures EndsWell(world, run, attempts + [attempt], next) && next == tick + if verdict.Succeed? then 0 else 1
    ensures run.turnCount == budget.turns && run.toolCallCount == budget.tools
    ensures EndsAsDecided(Settles(run), verdict) && ClosesTrace(TypesIn(old(ledger.events)), run)
    ensures SameTotals(run.usage, budget.Snapshot())
    ensures Attempted(world, attempts, attempt, ledger.usage, budget.Snapshot())
    ensures var done := attempts + [attempt];
            && AttemptsInOrder(done) && |done| <= 4 && ResultsOf(world, done)
            && BudgetsFollow(world, done, budget.Snapshot()) && LimitsStop(world, done)
            && (HitLimit(world, attempt) ==> run.receipt.status != Succeeded)
            && (!HitLimit(world, attempt) ==> CountsAll(done, budget.Snapshot()))
  {
    hide Count, Closed, ReceiptSound, SuccessSound, Settled, Within, Acceptable, ClosesTrace, TypesIn;
    next := tick;
    ghost var done := attempts + [attempt];
    SettledIsLevel(done, ledger.usage, budget.Snapshot());
    if verdict.Succeed? {
      run := SucceededRun(s, verdict.output, ledger, budget);
      MetadataSound(world, s, run, budget.Snapshot(), None, Some(verdict.output));
      SuccessFacts(world, s, run, done, ledger.usage, budget.Snapshot(), verdict.output);
      return;
    }
    run, next := Caught(world, tick, verdict.code, s, ledger, budget);
    MetadataSound(world, s, run, budget.Snapshot(),
                  if run.receipt.status == Failed then Some(verdict.code) else None, None);
  }

  /** What a run that settles shows in its receipt. */
  ghost predicate ReceiptTells(world: World, run: RunReceipt, attempts: seq<Attempt>, ticks: nat, last: Verdict,
                               final: Budget)
  {
    && run.turnCount == final.turns && run.toolCallCount == final.tools
    && (!last.Again? ==> SameTotals(run.usage, final))
    && (run.receipt.status == Failed ==>
          if last.Again? then FailsForReason(world, run, attempts, ticks, final)
          else attempts != [] && FailureShows(world.input, attempts[|attempts| - 1].result, run.receipt.errorCode))
  }

  /** What the attempts of a run have gone through, one after another. */
  ghost predicate AttemptsTell(world: World, attempts: seq<Attempt>, states: seq<LoopState>, last: Verdict,
                               final: Budget)
  {
    && Replays(world.input, attempts, states, last) && states[0] == StartState(world)
    && (last.Fail? ==> NothingLeft(world.input, attempts, attempts[|attempts| - 1]))
    && (if last.Again? then exists b :: BudgetsFollow(world, attempts, b) else BudgetsFollow(world, attempts, final))
  }

  /** The trace in the receipt is the history of the run, of a last attempt that came to no decision just a part. */
  ghost predicate TraceTells(world: World, run: RunReceipt, attempts: seq<Attempt>, phase: Phase, last: Verdict) {
    if last.Again? then
      exists part :: part <= StreamOf(world.attempts(|attempts|))
                     && ClosesTrace(Told(world.input, attempts, Some(phase)) + TypesOf(part, SeenIn(attempts)), run)
    else ClosesTrace(Told(world.input, attempts, None), run)
  }

  /** What a run promises, by what it returns and the attempts it made. */
  ghost predicate RunPromises(world: World, out: Outcome, attempts: seq<Attempt>, calls: nat, ticks: nat) {
    && (out == Raised(true) <==> !world.inputValid)
    && |attempts| <= calls <= |attempts| + 1 && calls <= 4 && ticks >= Reads(world, attempts)
    && AttemptsInOrder(attempts) && EachHasReason(world, attempts) && ResultsOf(world, attempts)
    && LimitsStop(world, attempts)
    && (out.Settles? ==> EndsWell(world, out.run, attempts, ticks))
    && (out.Settles? && out.run.receipt.status == Succeeded ==>
          && calls == |attempts|
          && out.run.turnCount == Turns(attempts) <= 4 && out.run.toolCallCount == ToolCalls(attempts) <= 6)
    && (attempts != [] && HitLimit(world, attempts[|attempts| - 1]) ==>
          calls == |attempts| && (out.Settles? ==> out.run.receipt.status != Succeeded))
  }

  /** What holds of every run in the end, told from the loop's states, its last decision and its final budget too. */
  ghost predicate RunIsSound(world: World, out: Outcome, attempts: seq<Attempt>, calls: nat, ticks: nat,
                             states: seq<LoopState>, last: Verdict, final: Budget)
  {
    && RunPromises(world, out, attempts, calls, ticks)
    && (if last.Again? then ticks >= Reads(world, attempts)
        else ticks == Reads(world, attempts) + if last.Succeed? then 0 else 1)
    && AttemptsTell(world, attempts, states, last, final)
    && EndsAsDecided(out, last)
    && (out.Settles? ==> ReceiptTells(world, out.run, attempts, ticks, last, final))
    && (out.Settles? ==> TraceTells(world, out.run, attempts, states[|attempts|].phase, last))
  }

  lemma SoundPromises(world: World, out: Outcome, attempts: seq<Attempt>, calls: nat, ticks: nat,
                      states: seq<LoopState>, last: Verdict, final: Budget)
    requires RunIsSound(world, out, attempts, calls, ticks, states, last, final)
    ensures RunPromises(world, out, attempts, calls, ticks)
  {
    hide RunPromises, AttemptsTell, EndsAsDecided, ReceiptTells, TraceTells, Reads;
  }

  lemma PartTold(world: World, out: Outcome, attempts: seq<Attempt>, phase: Phase, part: seq<PiEvent>)
    requires part <= StreamOf(world.attempts(|attempts|))
    requires out.Settles? ==>
               ClosesTrace(Told(world.input, attempts, Some(phase)) + TypesOf(part, SeenIn(attempts)), out.run)
    ensures out.Settles? ==> TraceTells(world, out.run, attempts, phase, Again)
  {
    hide ClosesTrace, Told, TypesOf, SeenIn, StreamOf;
  }

  lemma NothingTold(world: World, out: Outcome, phase: Phase)
    requires out.Settles? ==> ClosesTrace([RunQueued, AgentStart], out.run)
    ensures out.Settles? ==> TraceTells(world, out.run, [], phase, Again)
  {
    hide ClosesTrace;
    assert [RunQueued, AgentStart] + TypesOf([], false) == [RunQueued, AgentStart];
    PartTold(world, out, [], phase, []);
  }

  /** A run that was stopped before its next attempt came to a decision. */
  lemma StoppedIsSound(world: World, out: Outcome, attempts: seq<Attempt>, calls: nat, ticks: nat,
                       states: seq<LoopState>, final: Budget, before: Budget)
    requires world.inputValid && out != Raised(true) && |attempts| <= calls <= |attempts| + 1 && calls <= 4
    requires Replays(world.input, attempts, states, Again) && states[0] == StartState(world)
    requires AttemptsInOrder(attempts) && ResultsOf(world, attempts) && LimitsStop(world, attempts)
    requires BudgetsFollow(world, attempts, before) && EndsAsDecided(out, Again)
    requires attempts != [] && HitLimit(world, attempts[|attempts| - 1]) ==> calls == |attempts|
    requires out.Settles? ==> EndsWell(world, out.run, attempts, ticks) && out.run.receipt.status != Succeeded
    requires out.Settles? && out.run.receipt.status == Failed ==> FailsForReason(world, out.run, attempts, ticks, final)
    requires out.Settles? ==> out.run.turnCount == final.turns && out.run.toolCallCount == final.tools
    requires out.Settles? ==> TraceTells(world, out.run, attempts, states[|attempts|].phase, Again)
    requires ticks >= Reads(world, attempts)
    ensures RunIsSound(world, out, attempts, calls, ticks, states, Again, final)
  {
    hide Replays, AttemptsInOrder, EachHasReason, ResultsOf, LimitsStop, BudgetsFollow, EndsWell, FailsForReason,
         NothingLeft, HitLimit, StartState, SpentOn, TraceTells, Reads;
    ReasonsGiven(world, attempts, states, Again);
  }

  lemma CountersStayLow(world: World, run: RunReceipt, attempts: seq<Attempt>, ticks: nat)
    requires EndsWell(world, run, attempts, ticks)
    ensures run.turnCount <= 4 && run.toolCallCount <= 6
  {
    hide Closed, SuccessSound, AbortSeen, Count;
  }

  /** A run whose last attempt was decided. */
  lemma ConcludedIsSound(world: World, run: RunReceipt, attempts: seq<Attempt>, a: Attempt, ticks: nat,
                         states: seq<LoopState>, s: LoopState, next: LoopState, verdict: Verdict, final: Budget)
    requires world.inputValid && !verdict.Again?
    requires Replays(world.input, attempts + [a], states + [next], verdict) && (states + [next])[0] == StartState(world)
    requires Decides(world.input, s, a.result, next, verdict) && EndsAsDecided(Settles(run), verdict)
    requires AttemptsInOrder(attempts + [a]) && |attempts + [a]| <= 4 && ResultsOf(world, attempts + [a])
    requires LimitsStop(world, attempts + [a]) && BudgetsFollow(world, attempts + [a], final)
    requires EndsWell(world, run, attempts + [a], ticks) && SameTotals(run.usage, final)
    requires run.turnCount == final.turns && run.toolCallCount == final.tools
    requires if HitLimit(world, a) then run.receipt.status != Succeeded else CountsAll(attempts + [a], final)
    requires ClosesTrace(Told(world.input, attempts + [a], None), run)
    requires ticks == Reads(world, attempts + [a]) + if verdict.Succeed? then 0 else 1
    ensures RunIsSound(world, Settles(run), attempts + [a], |attempts| + 1, ticks, states + [next], verdict, final)
  {
    hide Replays, AttemptsInOrder, EachHasReason, ResultsOf, LimitsStop, BudgetsFollow, EndsWell, FailsForReason,
         NothingLeft, HitLimit, StartState, SpentOn, Decides, FailureShows, SameTotals, Turns, ToolCalls, ClosesTrace,
         Told, Reads;
    CountersStayLow(world, run, attempts + [a], ticks);
    ReasonsGiven(world, attempts + [a], states + [next], verdict);
    DecisionShows(world.input, s, a.result, next, verdict, run);
  }

  /**
   * The whole run. `attempts`, `calls` and `ticks` report what it did: the attempts with their results, the runtime
   * calls made, the signals read. `states` and `last` are the loop's states and its last decision, `final` is the
   * budget in the end.
   */
  method RunWorkflow(world: World)
    returns (out: Outcome, attempts: seq<Attempt>, calls: nat, ticks: nat, ghost states: seq<LoopState>,
             ghost last: Verdict, ghost final: Budget)
    ensures RunPromises(world, out, attempts, calls, ticks)
    ensures RunIsSound(world, out, attempts, calls, ticks, states, last, final)
  {
    hide Count, Remaining, Acceptable, Settled, Within, Numbered, CodeText, Replays, EndsWell, FailsForReason,
         RunIsSound, RunPromises, Between, Underway, Attempted, PhasesSpent, AttemptsInOrder, Bounded, TraceCounts,
         StartState, HitLimit, LimitsStop, BudgetsFollow, ResultsOf, EndsAsDecided, Decides, SpendsAllowance,
         ThrowReason, CountsAll, WorldLeavesAlone, SameTotals, Told, TypesIn, TypesOf, SeenIn, Mark, ClosesTrace,
         StreamOf, TraceTells, Reads, ReadsFor;
    attempts, calls, ticks, states, last, final := [], 0, 0, [StartState(world)], Again, FRESH_BUDGET;
    NothingDone(world);
    if !world.inputValid {
      out := Raised(true);
      SoundPromises(world, out, attempts, calls, ticks, states, last, final);
      return;
    }
    var ledger, budget, s := Begin(world);
    assert s == StartState(world) && budget.Snapshot() == FRESH_BUDGET;
    StartsBetween(world, s, ledger.events, ledger.usage, budget.Snapshot());
    if !world.promptKnown {
      out, ticks := Stopped(world, ticks, Throw(PromptVersionUnavailable), s, ledger, budget, attempts);
      final := budget.Snapshot();
      NothingTold(world, out, s.phase);
      StoppedIsSound(world, out, attempts, calls, ticks, states, final, FRESH_BUDGET);
      SoundPromises(world, out, attempts, calls, ticks, states, last, final);
      return;
    }
    while true
      invariant Between(world, s, attempts, ledger.events, ledger.usage, budget.Snapshot())
      invariant calls == |attempts| && ticks == Reads(world, attempts)
      invariant Underway(world, attempts, states, s)
      invariant last == Again && s.providerRetries <= s.maxRetries && s.fallbackCount <= MAX_FALLBACKS
      invariant fresh(ledger) && fresh(budget) && ledger.firstTokenSeen == SeenIn(attempts)
      decreases Allowances(s)
    {
      ghost var given := budget.Snapshot();
      var step, attempt, called;
      ghost var part;
      step, attempt, ticks, called, part := MakeAttempt(world, ticks, s, attempts, ledger, budget);
      if called {
        calls := calls + 1;
      }
      if !step.Proceed? {
        UnderwaySays(world, attempts, states, s);
        out, ticks := Stopped(world, ticks, step, s, ledger, budget, attempts);
        final := budget.Snapshot();
        PartTold(world, out, attempts, s.phase, part);
        StoppedIsSound(world, out, attempts, calls, ticks, states, final, given);
        SoundPromises(world, out, attempts, calls, ticks, states, last, final);
        return;
      }
      var next, verdict := Decide(world, s, attempt.result, ledger);
      UnderwayOn(world, attempts, states, s, attempt, next, verdict);
      ReadsGrow(world, attempts, attempt);
      ToldGrows(world.input, attempts, attempt, if verdict.Again? then Some(next.phase) else None);
      if !verdict.Again? {
        var run;
        run, ticks := Concluded(world, ticks, verdict, next, attempts, attempt, ledger, budget);
        final := budget.Snapshot();
        ConcludedIsSound(world, run, attempts, attempt, ticks, states, s, next, verdict, final);
        attempts, states, last := attempts + [attempt], states + [next], verdict;
        out := Settles(run);
        SoundPromises(world, out, attempts, calls, ticks, states, last, final);
        return;
      }
      RoundAgain(world, s, next, attempts, attempt, ledger.events, ledger.usage, budget.Snapshot());
      attempts, states, s := attempts + [attempt], states + [next], next;
    }
  }
}

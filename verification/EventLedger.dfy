/** The trace of one workflow run: numbered events, and the usage that assistant messages report. */
module EventLedger {
  import opened Wrappers
  import opened RunStore

  const TRACE_COST_USD_MAX: real := 999_999.0

  /** Usage as a provider message carries it, after `number` has replaced what is not a finite number by 0. */
  datatype Usage = Usage(input: real, output: real, cacheRead: real, cacheWrite: real, reasoning: real,
                         totalTokens: real, costUsd: real)

  const NO_USAGE := Usage(0.0, 0.0, 0.0, 0.0, 0.0, 0.0, 0.0)

  /** The `type` of a provider event, as far as it matters: a trace event's own name, or one of the other names. */
  datatype RawType = Named(name: EventType) | Start | Done | Error | Delta | Other

  /**
   * `innerDelta`: the nested assistant message event of an update ends in "_delta"; `usage`: that of an assistant
   * message.
   */
  datatype PiEvent = PiEvent(raw: RawType, innerDelta: bool, usage: Option<Usage>)

  /** Only the closing events of a message report usage. */
  function AssistantUsage(event: PiEvent): Option<Usage> {
    if event.raw == Named(MessageEnd) || event.raw == Done || event.raw == Error then event.usage else None
  }

  predicate EndsInDelta(event: PiEvent) {
    event.raw == Delta || (event.raw == Named(MessageUpdate) && event.innerDelta)
  }

  function TypeOf(event: PiEvent, firstTokenSeen: bool): EventType {
    if event.raw == Start then MessageStart
    else if event.raw == Done || event.raw == Error then MessageEnd
    else if EndsInDelta(event) && !firstTokenSeen then FirstToken
    else if event.raw.Named? then event.raw.name
    else Unknown
  }

  /** Every counter of the usage grows, the cost aside. */
  function Counted(usage: Usage, more: Usage): Usage {
    usage.(input := usage.input + more.input, output := usage.output + more.output,
           cacheRead := usage.cacheRead + more.cacheRead, cacheWrite := usage.cacheWrite + more.cacheWrite,
           reasoning := usage.reasoning + more.reasoning, totalTokens := usage.totalTokens + more.totalTokens)
  }

  /** The new total stays in the range of a receipt. */
  predicate CostFits(usage: Usage, event: PiEvent) {
    AssistantUsage(event).Some? ==>
      0.0 <= usage.costUsd + AssistantUsage(event).value.costUsd <= TRACE_COST_USD_MAX
  }

  /** Tokens and cost that a stretch of provider events reports. */
  function TokenSum(events: seq<PiEvent>): real {
    if events == [] then 0.0
    else
      var last := events[|events| - 1];
      TokenSum(events[..|events| - 1]) + match AssistantUsage(last) case Some(u) => u.totalTokens case None => 0.0
  }

  function CostSum(events: seq<PiEvent>): real {
    if events == [] then 0.0
    else
      var last := events[|events| - 1];
      CostSum(events[..|events| - 1]) + match AssistantUsage(last) case Some(u) => u.costUsd case None => 0.0
  }

  /** How many of the provider's events have the name. */
  function Starts(events: seq<PiEvent>, name: EventType): nat {
    if events == [] then 0
    else Starts(events[..|events| - 1], name) + if events[|events| - 1].raw == Named(name) then 1 else 0
  }

  lemma StartsLast(events: seq<PiEvent>, n: nat, name: EventType)
    requires n < |events|
    ensures Starts(events[..n + 1], name) == Starts(events[..n], name) + if events[n].raw == Named(name) then 1 else 0
  {
    assert events[..n + 1][..n] == events[..n];
  }

  /** How often a type occurs in a trace. */
  function Count(events: seq<TraceEvent>, eventType: EventType): nat {
    if events == [] then 0
    else Count(events[..|events| - 1], eventType) + if events[|events| - 1].eventType == eventType then 1 else 0
  }

  lemma CountLast(events: seq<TraceEvent>, event: TraceEvent, eventType: EventType)
    ensures Count(events + [event], eventType) == Count(events, eventType)
            + if event.eventType == eventType then 1 else 0
  {
    assert (events + [event])[..|events|] == events;
  }

  /** The types of a trace. */
  function TypesIn(events: seq<TraceEvent>): (r: seq<EventType>)
    ensures |r| == |events|
  {
    seq(|events|, i requires 0 <= i < |events| => events[i].eventType)
  }

  lemma TypesLast(events: seq<TraceEvent>, event: TraceEvent)
    ensures TypesIn(events + [event]) == TypesIn(events) + [event.eventType]
  {
  }

  /** A delta has been seen. */
  predicate SeenAfter(events: seq<PiEvent>, seen: bool) {
    seen || exists i :: 0 <= i < |events| && EndsInDelta(events[i])
  }

  /** The types that provider events are recorded under: the first delta of all is the first token. */
  function TypesOf(events: seq<PiEvent>, seen: bool): seq<EventType> {
    seq(|events|, i requires 0 <= i < |events| => TypeOf(events[i], SeenAfter(events[..i], seen)))
  }

  lemma TypesOneMore(events: seq<PiEvent>, n: nat, seen: bool)
    requires n < |events|
    ensures TypesOf(events[..n + 1], seen)
         == TypesOf(events[..n], seen) + [TypeOf(events[n], SeenAfter(events[..n], seen))]
    ensures SeenAfter(events[..n + 1], seen) <==> SeenAfter(events[..n], seen) || EndsInDelta(events[n])
  {
    hide EndsInDelta, TypeOf;
    assert forall i :: 0 <= i <= n ==> events[..n + 1][..i] == events[..i];
    assert forall i :: 0 <= i <= n ==> events[..n][..i] == events[..i];
    assert events[..n + 1][n] == events[n];
    assert forall i :: 0 <= i < n ==> events[..n + 1][i] == events[..n][i];
  }

  /** What closes a message may report usage, and nothing else. */
  predicate Reports(event: PiEvent) {
    (event.raw == Named(MessageEnd) || event.raw == Done || event.raw == Error) && event.usage.Some?
  }

  /** A reported usage is added, counter by counter; a cost out of range is left out and refused. */
  predicate UsageTaken(before: Usage, event: PiEvent, ok: bool, after: Usage) {
    if !Reports(event) then ok && after == before
    else
      var more := event.usage.value;
      && (ok <==> 0.0 <= before.costUsd + more.costUsd <= 999_999.0)
      && after == Usage(before.input + more.input, before.output + more.output, before.cacheRead + more.cacheRead,
                        before.cacheWrite + more.cacheWrite, before.reasoning + more.reasoning,
                        before.totalTokens + more.totalTokens, before.costUsd + if ok then more.costUsd else 0.0)
  }

  /** The type that an event is recorded under. */
  predicate TypeTold(event: PiEvent, firstTokenSeen: bool, recorded: EventType) {
    match event.raw
    case Start => recorded == MessageStart
    case Done => recorded == MessageEnd
    case Error => recorded == MessageEnd
    case Delta => recorded == if firstTokenSeen then Unknown else FirstToken
    case Other => recorded == Unknown
    case Named(name) =>
      recorded == if name == MessageUpdate && event.innerDelta && !firstTokenSeen then FirstToken else name
  }

  class EventLedger {
    var events: seq<TraceEvent>
    var usage: Usage
    var firstTokenSeen: bool

    constructor ()
      ensures events == [] && usage == NO_USAGE && !firstTokenSeen
    {
      events, usage, firstTokenSeen := [], NO_USAGE, false;
    }

    method Append(eventType: EventType)
      modifies this`events
      ensures events == old(events) + [TraceEvent(|old(events)| + 1, eventType)]
    {
      events := events + [TraceEvent(|events| + 1, eventType)];
    }

    /**
     * Records one provider event. A cost outside the receipt's range is refused: then no event is appended and the
     * cost stays, but the other counters have grown.
     */
    method AppendPiEvent(raw: PiEvent) returns (ok: bool)
      modifies this
      ensures ok <==> CostFits(old(usage), raw)
      ensures events == if ok then old(events) + [TraceEvent(|old(events)| + 1, TypeOf(raw, old(firstTokenSeen)))]
                        else old(events)
      ensures usage.(costUsd := old(usage).costUsd) ==
              if AssistantUsage(raw).Some? then Counted(old(usage), AssistantUsage(raw).value) else old(usage)
      ensures ok ==> TypeTold(raw, old(firstTokenSeen), events[|old(events)|].eventType)
      ensures UsageTaken(old(usage), raw, ok, usage)
      ensures usage.costUsd == if ok then old(usage).costUsd + CostSum([raw]) else old(usage).costUsd
      ensures ok ==> usage.totalTokens == old(usage).totalTokens + TokenSum([raw])
      ensures firstTokenSeen <==> old(firstTokenSeen) || EndsInDelta(raw)
    {
      assert TokenSum([]) == 0.0 && CostSum([]) == 0.0;
      assert [raw][..0] == [];
      var eventType := if raw.raw.Named? then raw.raw.name else Unknown;
      if raw.raw == Start {
        eventType := MessageStart;
      } else if raw.raw == Done || raw.raw == Error {
        eventType := MessageEnd;
      } else if EndsInDelta(raw) && !firstTokenSeen {
        eventType := FirstToken;
        firstTokenSeen := true;
      } else if raw.raw == Named(MessageUpdate) {
        eventType := MessageUpdate;
      }
      var rawUsage := AssistantUsage(raw);
      if rawUsage.Some? {
        var u := rawUsage.value;
        usage := usage.(input := usage.input + u.input, output := usage.output + u.output,
                        cacheRead := usage.cacheRead + u.cacheRead, cacheWrite := usage.cacheWrite + u.cacheWrite,
                        reasoning := usage.reasoning + u.reasoning, totalTokens := usage.totalTokens + u.totalTokens);
        var cost := usage.costUsd + u.costUsd;
        if cost < 0.0 || cost > TRACE_COST_USD_MAX {
          return false;
        }
        usage := usage.(costUsd := cost);
      }
      Append(eventType);
      return true;
    }
  }
}

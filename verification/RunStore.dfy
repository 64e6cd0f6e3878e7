/** The records that both run stores keep, and the receipt written when a run ends without its own. */
module RunStore {
  import opened Wrappers

  datatype RunStatus = Queued | Running | Succeeded | Failed | Cancelled

  predicate IsTerminal(status: RunStatus) {
    status == Succeeded || status == Failed || status == Cancelled
  }

  /** The event types of a trace; every other name is recorded as `Unknown`. */
  datatype EventType =
    | RunQueued | AgentStart | TurnStart | MessageStart | FirstToken | MessageUpdate | MessageEnd
    | ToolExecutionStart | ToolExecutionEnd | TurnEnd | AutoRetryStart | AutoRetryEnd | ModelFallback
    | SchemaValidationFailed | FactValidationFailed | AgentEnd | AgentSettled
    | RunSucceeded | RunFailed | RunCancelled | UserAccepted | UserEdited | UserIgnored | Unknown

  datatype TraceEvent = TraceEvent(eventSeq: nat, eventType: EventType)

  /** The parts of a receipt's run that a terminal receipt is about; all other fields are copied. */
  datatype Receipt = Receipt(status: RunStatus, errorCode: Option<string>, events: seq<TraceEvent>, hasResult: bool)

  datatype RunRecord = RunRecord(
    inputHash: string,
    status: RunStatus,
    owner: string,
    cancelRequested: bool,
    leaseExpiresAt: int,
    receipt: Option<Receipt>,
    errorCode: Option<string>)

  const OWNER_LOST := "owner_instance_lost"

  function TerminalEvent(status: RunStatus): EventType
    requires IsTerminal(status)
  {
    match status
    case Cancelled => RunCancelled
    case Failed => RunFailed
    case _ => RunSucceeded
  }

  function Events(receipt: Option<Receipt>): seq<TraceEvent> {
    if receipt.Some? then receipt.value.events else []
  }

  /** `terminalReceipt`: the earlier events, closed by the event that matches the status unless they already end so. */
  function TerminalReceipt(status: RunStatus, errorCode: Option<string>, previous: Option<Receipt>): Receipt
    requires IsTerminal(status)
  {
    var events := Events(previous);
    var eventType := TerminalEvent(status);
    var closed :=
      if events != [] && events[|events| - 1].eventType == eventType then events
      else events + [TraceEvent(|events| + 1, eventType)];
    Receipt(status, errorCode, closed, status == Succeeded && previous.Some? && previous.value.hasResult)
  }

  /** Events are numbered 1, 2, 3, ... without a gap. */
  predicate Numbered(events: seq<TraceEvent>) {
    forall i :: 0 <= i < |events| ==> events[i].eventSeq == i + 1
  }

  /** The events end with the one that says how the run ended. */
  predicate EndsAs(events: seq<TraceEvent>, status: RunStatus) {
    IsTerminal(status) && events != [] && events[|events| - 1].eventType == TerminalEvent(status)
  }

  predicate Closed(receipt: Receipt) {
    Numbered(receipt.events) && EndsAs(receipt.events, receipt.status)
  }

  /** Rewriting a receipt for another ending keeps the numbering and only adds the closing event. */
  lemma TerminalReceiptClosed(status: RunStatus, errorCode: Option<string>, previous: Option<Receipt>)
    requires IsTerminal(status) && Numbered(Events(previous))
    ensures Closed(TerminalReceipt(status, errorCode, previous))
    ensures var after := TerminalReceipt(status, errorCode, previous);
            && after.status == status && after.errorCode == errorCode
            && (after.hasResult <==> status == Succeeded && previous.Some? && previous.value.hasResult)
            && Events(previous) <= after.events && |after.events| <= |Events(previous)| + 1
            && (EndsAs(Events(previous), status) ==> after.events == Events(previous))
  {
  }

  // ----- operations, as one step at one time -----

  datatype Op =
    | CreateOrGet(id: string, record: RunRecord)
    | Get(id: string)
    | MarkRunning(id: string)
    | Heartbeat(id: string, instance: string)
    | Complete(id: string, instance: string, status: RunStatus, receipt: Receipt, code: Option<string>)
    | RequestCancel(id: string)

  /** A run is completed with one of the three final statuses: the type of the parameter says so. */
  predicate ValidOp(op: Op) {
    op.Complete? ==> IsTerminal(op.status)
  }

  datatype Reply =
    | Created(run: RunRecord)
    | Existing(run: RunRecord)
    | Conflict(run: RunRecord)
    | NotFoundAfterCreate
    | Record(found: Option<RunRecord>)
    | Beat(alive: bool)
    | CancelNotFound
    | CancelTerminal(ended: RunStatus)
    | CancelAccepted(notify: string)
    | CancelInvalid

  type Runs = map<string, RunRecord>

  function Lookup(runs: Runs, id: string): Option<RunRecord> {
    if id in runs then Some(runs[id]) else None
  }

  predicate Lapsed(record: RunRecord, now: int) {
    !IsTerminal(record.status) && record.leaseExpiresAt <= now
  }

  /** The status that a read at `now` reports: a lapsed lease counts as failed before anything writes it down. */
  function EffectiveStatus(record: RunRecord, now: int): RunStatus {
    if Lapsed(record, now) then Failed else record.status
  }

  // ----- runs of a store -----

  datatype Timed = Timed(op: Op, now: int)

  predicate ValidTrace(trace: seq<Timed>) {
    forall i :: 0 <= i < |trace| ==> ValidOp(trace[i].op)
  }

  /** The clock never goes back. */
  predicate ClockFrom(start: int, trace: seq<Timed>) {
    && (forall i :: 0 <= i < |trace| ==> start <= trace[i].now)
    && forall i, j :: 0 <= i < j < |trace| ==> trace[i].now <= trace[j].now
  }
}

/**
 * The usage ledger: AI tasks are admitted against a daily cost limit and a daily task limit, each with a
 * reservation that is later consumed or released under the guard of the table's triggers.
 */
module UsageLedger {
  import opened Sequences
  import opened Wrappers
  import opened Aliases

  datatype EntryState = Reserved | Consumed | Released

  /** A row of the ledger. Times are microseconds. */
  datatype Entry = Entry(
    id: string, owner: User, usageType: string, quantity: nat, cost: real, traceId: string, state: EntryState,
    taskId: Option<string>, aiRunId: Option<string>, createdAt: int, updatedAt: int)

  const AI_TASK := "ai_task"
  const AI_TASKS_PER_DAY: int := 20
  const AI_TASKS_CONCURRENT: int := 2
  const GLOBAL_COST_ALERT: real := 70.0
  const GLOBAL_COST_DEGRADED: real := 90.0
  const GLOBAL_COST_LIMIT: real := 100.0
  const MICROSECONDS: int := 1_000_000
  const DAY: int := 86_400 * MICROSECONDS

  // ----- the guard -----

  /** What the trigger on updates lets pass; deletions never pass. */
  predicate GuardAllows(before: Entry, after: Entry) {
    && before.state == Reserved
    && after.state in {Consumed, Released}
    && after.id == before.id && after.owner == before.owner && after.usageType == before.usageType
    && after.quantity == before.quantity && after.cost == before.cost && after.traceId == before.traceId
    && after.taskId == before.taskId && after.createdAt == before.createdAt
    && (after.state == Consumed ==> after.aiRunId.Some?)
    && (after.state == Released ==> after.aiRunId.None?)
  }

  // ----- sums over the ledger -----

  function Sum(rows: seq<Entry>, share: Entry -> real): real {
    if rows == [] then 0.0 else Sum(rows[..|rows| - 1], share) + share(rows[|rows| - 1])
  }

  predicate Counts(e: Entry, states: set<EntryState>, since: int) {
    e.usageType == AI_TASK && e.state in states && since <= e.createdAt
  }

  function CostIn(states: set<EntryState>, since: int): Entry -> real {
    (e: Entry) => if Counts(e, states, since) then e.cost else 0.0
  }

  function QuantityIn(owners: set<User>, states: set<EntryState>, since: int): Entry -> real {
    (e: Entry) => if e.owner in owners && Counts(e, states, since) then e.quantity as real else 0.0
  }

  function DailyCost(rows: seq<Entry>, since: int): real {
    Sum(rows, CostIn({Consumed}, since))
  }

  function AdmissionCost(rows: seq<Entry>, since: int): real {
    Sum(rows, CostIn({Reserved, Consumed}, since))
  }

  /** How many AI tasks the owners have had since then, reserved or consumed. */
  function TasksOf(rows: seq<Entry>, owners: set<User>, since: int): real {
    Sum(rows, QuantityIn(owners, {Reserved, Consumed}, since))
  }

  lemma SumAppend(rows: seq<Entry>, e: Entry, share: Entry -> real)
    ensures Sum(rows + [e], share) == Sum(rows, share) + share(e)
  {
    assert (rows + [e])[..|rows|] == rows;
  }

  lemma {:induction false} SumUpdate(rows: seq<Entry>, i: nat, e: Entry, share: Entry -> real)
    requires i < |rows|
    ensures Sum(rows[i := e], share) == Sum(rows, share) - share(rows[i]) + share(e)
    decreases |rows|
  {
    var last := |rows| - 1;
    if i == last {
      assert rows[i := e][..last] == rows[..last];
    } else {
      assert rows[i := e][..last] == rows[..last][i := e];
      SumUpdate(rows[..last], i, e, share);
    }
  }

  lemma {:induction false} SumAtMost(rows: seq<Entry>, f: Entry -> real, g: Entry -> real)
    requires forall e :: e in rows ==> f(e) <= g(e)
    ensures Sum(rows, f) <= Sum(rows, g)
  {
    if rows != [] {
      SumAtMost(rows[..|rows| - 1], f, g);
    }
  }

  lemma {:induction false} SumOfParts(rows: seq<Entry>, whole: Entry -> real, f: Entry -> real, g: Entry -> real)
    requires forall e :: e in rows ==> whole(e) == f(e) + g(e)
    ensures Sum(rows, whole) == Sum(rows, f) + Sum(rows, g)
  {
    if rows != [] {
      SumOfParts(rows[..|rows| - 1], whole, f, g);
    }
  }

  // ----- admission -----

  datatype Reason = LimitReached | ConcurrencyLimitReached | RetryDisabled | CostDegraded | CostAlert

  datatype Decision = Decision(allowed: bool, reason: Option<Reason>, retryAfter: Option<int>, taskId: Option<string>)

  function EvaluateUsage(cost: real, dailyTasks: real, running: nat, retryAfter: int, isRetry: bool): Decision {
    if cost >= GLOBAL_COST_LIMIT then Decision(false, Some(LimitReached), Some(retryAfter), None)
    else if dailyTasks >= AI_TASKS_PER_DAY as real then Decision(false, Some(LimitReached), Some(retryAfter), None)
    else if running >= AI_TASKS_CONCURRENT then Decision(false, Some(ConcurrencyLimitReached), None, None)
    else if cost >= GLOBAL_COST_DEGRADED then
      if isRetry then Decision(false, Some(RetryDisabled), None, None)
      else Decision(true, Some(CostDegraded), None, None)
    else if cost >= GLOBAL_COST_ALERT then Decision(true, Some(CostAlert), None, None)
    else Decision(true, None, None, None)
  }

  function EvaluateAdmissionUsage(cost: real, requested: real, dailyTasks: real, running: nat, retryAfter: int,
                                  isRetry: bool): Decision
  {
    if cost + requested > GLOBAL_COST_LIMIT then Decision(false, Some(LimitReached), Some(retryAfter), None)
    else EvaluateUsage(cost, dailyTasks, running, retryAfter, isRetry)
  }

  function DayStart(now: int): int {
    now - now % DAY
  }

  /**
   * One admission. The service reads its clock for `createdAt`, for the start of the day and for the wait;
   * `running` is the count of the owner's queued and running tasks, the ids are new ones, and `pick` is the choice
   * among several idempotency records, which the query does not order.
   */
  datatype Request = Request(
    user: User, traceId: string, key: string, createdAt: int, dayStart: int, retryAfter: int, isRetry: bool, cost: real,
    bodyHash: string, running: nat, taskId: string, entryId: string, pick: nat)

  /** An idempotency record of the admission route. */
  datatype Record = Record(owner: User, key: string, bodyHash: string, decision: Decision)

  datatype Refusal = CostInvalid | KeyReused | NoCanonicalUser

  datatype Answer = Decided(decision: Decision) | Refused(why: Refusal)

  datatype Books = Books(rows: seq<Entry>, records: seq<Record>)

  /** The records of the key under any of the owners. */
  function Matching(records: seq<Record>, owners: set<User>, key: string): (r: seq<Record>)
    ensures forall x :: x in r <==> x in records && x.owner in owners && x.key == key
  {
    if records == [] then []
    else
      var last := records[|records| - 1];
      Matching(records[..|records| - 1], owners, key) + if last.owner in owners && last.key == key then [last] else []
  }

  /** The record that the query without order returns. */
  function FindRecord(records: seq<Record>, owners: set<User>, key: string, pick: nat): Option<Record> {
    var found := Matching(records, owners, key);
    if found == [] then None else Some(found[pick % |found|])
  }

  function Decide(rows: seq<Entry>, owners: set<User>, q: Request): Decision {
    var d := EvaluateAdmissionUsage(
               AdmissionCost(rows, q.dayStart), q.cost, TasksOf(rows, owners, q.dayStart), q.running, q.retryAfter,
               q.isRetry);
    if d.allowed then d.(taskId := Some(q.taskId)) else d
  }

  function Reservation(owner: User, q: Request): Entry {
    Entry(q.entryId, owner, AI_TASK, 1, q.cost, q.traceId, Reserved, Some(q.taskId), None, q.createdAt, q.createdAt)
  }

  function DirectUse(owner: User, id: string, traceId: string, now: int, cost: real): Entry {
    Entry(id, owner, AI_TASK, 1, cost, traceId, Consumed, None, None, now, now)
  }

  // ----- what the operations do -----

  ghost function AnswerTo(t: Table, b: Books, q: Request): Answer {
    if q.cost < 0.0 then Refused(CostInvalid)
    else if !HasRoot(t, q.user) then Refused(NoCanonicalUser)
    else
      var found := FindRecord(b.records, Class(t, q.user), q.key, q.pick);
      if found.None? then Decided(Decide(b.rows, Class(t, q.user), q))
      else if found.value.bodyHash != q.bodyHash then Refused(KeyReused)
      else Decided(found.value.decision)
  }

  ghost function AfterAdmit(t: Table, b: Books, q: Request): Books {
    if q.cost < 0.0 || !HasRoot(t, q.user) || FindRecord(b.records, Class(t, q.user), q.key, q.pick).Some? then b
    else
      var d := Decide(b.rows, Class(t, q.user), q);
      Books(if d.allowed then b.rows + [Reservation(Root(t, q.user), q)] else b.rows,
            b.records + [Record(Root(t, q.user), q.key, q.bodyHash, d)])
  }

  ghost function AfterAppend(t: Table, b: Books, user: User, id: string, traceId: string, now: int, cost: real): Books {
    if cost < 0.0 || !HasRoot(t, user) then b
    else b.(rows := b.rows + [DirectUse(Root(t, user), id, traceId, now, cost)])
  }

  function AfterUpdate(b: Books, i: nat, entry: Entry): Books {
    if i < |b.rows| && GuardAllows(b.rows[i], entry) then b.(rows := b.rows[i := entry]) else b
  }

  // ----- what an admission promises -----

  /**
   * The decision on a new key: what `held` costs of the day leave, the account's `tasks` of the day, the tasks under
   * way, and from a cost of 90 on no retries.
   */
  predicate DecidedBy(held: real, tasks: real, q: Request, d: Decision) {
    && (d.allowed <==> held + q.cost <= 100.0 && held < 100.0 && tasks < 20.0 && q.running < 2
                       && !(q.isRetry && held >= 90.0))
    && (d.allowed ==> d.taskId == Some(q.taskId) && d.retryAfter == None)
    && (d.allowed ==> d.reason == if held >= 90.0 then Some(CostDegraded) else if held >= 70.0 then Some(CostAlert)
                                  else None)
    && (!d.allowed ==>
          d == if held + q.cost > 100.0 || held >= 100.0 || tasks >= 20.0
               then Decision(false, Some(LimitReached), Some(q.retryAfter), None)
               else if q.running >= 2 then Decision(false, Some(ConcurrencyLimitReached), None, None)
               else Decision(false, Some(RetryDisabled), None, None))
  }

  /** The row of one AI task, held for it or used at once. */
  predicate IsRowOf(e: Entry, id: string, owner: User, cost: real, traceId: string, createdAt: int) {
    && e.id == id && e.owner == owner && e.cost == cost && e.traceId == traceId
    && e.usageType == "ai_task" && e.quantity == 1 && e.aiRunId == None
    && e.createdAt == createdAt && e.updatedAt == createdAt
  }

  /** The record answers the key for one of the owners. */
  predicate Answers(r: Record, owners: set<User>, key: string) {
    r.owner in owners && r.key == key
  }

  /** A row counts against the day's cost while it is reserved or consumed, from the start of the day on. */
  lemma HeldCostGrows(rows: seq<Entry>, e: Entry, since: int)
    ensures AdmissionCost([], since) == 0.0
    ensures AdmissionCost(rows + [e], since) == AdmissionCost(rows, since)
            + if e.usageType == "ai_task" && e.state != Released && e.createdAt >= since then e.cost else 0.0
  {
    SumAppend(rows, e, CostIn({Reserved, Consumed}, since));
  }

  /** And in the same way against the day's tasks of its owner. */
  lemma TasksGrow(rows: seq<Entry>, e: Entry, owners: set<User>, since: int)
    ensures TasksOf([], owners, since) == 0.0
    ensures TasksOf(rows + [e], owners, since) == TasksOf(rows, owners, since)
            + if e.owner in owners && e.usageType == "ai_task" && e.state != Released && e.createdAt >= since
              then e.quantity as real else 0.0
  {
    SumAppend(rows, e, QuantityIn(owners, {Reserved, Consumed}, since));
  }

  class Ledger {
    var rows: seq<Entry>
    var records: seq<Record>

    ghost function State(): Books
      reads this
    {
      Books(rows, records)
    }

    constructor ()
      ensures State() == Books([], [])
    {
      rows, records := [], [];
    }

    method AppendAiTask(t: Table, user: User, id: string, traceId: string, now: int, cost: real)
      returns (r: Result<Entry, Refusal>)
      modifies this
      ensures State() == AfterAppend(t, old(State()), user, id, traceId, now, cost)
      ensures r.Ok? <==> 0.0 <= cost && HasRoot(t, user)
      ensures r.Ok? ==> rows == old(rows) + [r.value] && IsRowOf(r.value, id, Root(t, user), cost, traceId, now)
                        && r.value.state == Consumed && r.value.taskId == None
      ensures r.Err? ==> State() == old(State())
    {
      if cost < 0.0 {
        return Err(CostInvalid);
      }
      var owner := CanonicalUserId(t, user);
      if owner.Err? {
        return Err(NoCanonicalUser);
      }
      var row := DirectUse(owner.value, id, traceId, now, cost);
      rows := rows + [row];
      r := Ok(row);
    }

    method AdmitAiTask(t: Table, q: Request) returns (a: Answer)
      modifies this
      ensures State() == AfterAdmit(t, old(State()), q)
      ensures a == AnswerTo(t, old(State()), q)
      ensures q.cost < 0.0 ==> a == Refused(CostInvalid)
      ensures q.cost >= 0.0 && !HasRoot(t, q.user) ==> a == Refused(NoCanonicalUser)
      ensures !a.Decided? ==> State() == old(State())
      ensures q.cost >= 0.0 && HasRoot(t, q.user) ==>
                if exists r :: r in old(records) && Answers(r, Class(t, q.user), q.key) then
                  && State() == old(State())
                  && exists r :: r in old(records) && Answers(r, Class(t, q.user), q.key)
                                 && a == if r.bodyHash == q.bodyHash then Decided(r.decision) else Refused(KeyReused)
                else
                  && a.Decided?
                  && DecidedBy(AdmissionCost(old(rows), q.dayStart),
                               TasksOf(old(rows), Class(t, q.user), q.dayStart), q, a.decision)
                  && records == old(records) + [Record(Root(t, q.user), q.key, q.bodyHash, a.decision)]
                  && if a.decision.allowed then
                       && |rows| == |old(rows)| + 1 && rows[..|old(rows)|] == old(rows)
                       && var row := rows[|old(rows)|];
                          && IsRowOf(row, q.entryId, Root(t, q.user), q.cost, q.traceId, q.createdAt)
                          && row.state == Reserved && row.taskId == Some(q.taskId)
                     else rows == old(rows)
    {
      if q.cost < 0.0 {
        return Refused(CostInvalid);
      }
      var owner := CanonicalUserId(t, q.user);
      if owner.Err? {
        return Refused(NoCanonicalUser);
      }
      ReachesItself(t, owner.value);
      RootUnique(t, owner.value, Root(t, owner.value), owner.value);
      var ownerIds := AuthorizedOwnerIds(t, owner.value);
      var owners := Elems(ownerIds.value);
      assert owners == Class(t, q.user);
      var existing := FindRecord(records, owners, q.key, q.pick);
      if existing.Some? {
        return if existing.value.bodyHash != q.bodyHash then Refused(KeyReused) else Decided(existing.value.decision);
      }
      var decision := Decide(rows, owners, q);
      if decision.allowed {
        rows := rows + [Reservation(owner.value, q)];
      }
      records := records + [Record(owner.value, q.key, q.bodyHash, decision)];
      a := Decided(decision);
    }

    /** An UPDATE of one row, under the trigger. */
    method UpdateRow(i: nat, entry: Entry) returns (done: bool)
      requires i < |rows|
      modifies this
      ensures State() == AfterUpdate(old(State()), i, entry)
      ensures done <==>
              var row := old(rows[i]);
              && row.state == Reserved
              && (if entry.state == Consumed then entry.aiRunId.Some?
                  else entry.state == Released && entry.aiRunId.None?)
              && entry == row.(state := entry.state, aiRunId := entry.aiRunId, updatedAt := entry.updatedAt)
      ensures rows == (if done then old(rows)[i := entry] else old(rows)) && records == old(records)
    {
      done := GuardAllows(rows[i], entry);
      if done {
        rows := rows[i := entry];
      }
    }
  }

  // ----- conservation -----

  /** What is held against the limit is what is reserved and what is consumed. */
  lemma AdmissionCostIsBoth(rows: seq<Entry>, since: int)
    ensures AdmissionCost(rows, since) == DailyCost(rows, since) + Sum(rows, CostIn({Reserved}, since))
  {
    SumOfParts(rows, CostIn({Reserved, Consumed}, since), CostIn({Consumed}, since), CostIn({Reserved}, since));
  }

  /** A release lowers the total by the cost of its row; a settlement keeps the total and adds the cost to the day's. */
  lemma GuardConserves(rows: seq<Entry>, i: nat, after: Entry, since: int)
    requires i < |rows| && GuardAllows(rows[i], after)
    ensures var held := CostIn({Reserved}, since)(rows[i]);
            && AdmissionCost(rows[i := after], since)
               == AdmissionCost(rows, since) - (if after.state == Released then held else 0.0)
            && DailyCost(rows[i := after], since)
               == DailyCost(rows, since) + (if after.state == Consumed then held else 0.0)
  {
    SumUpdate(rows, i, after, CostIn({Reserved, Consumed}, since));
    SumUpdate(rows, i, after, CostIn({Consumed}, since));
  }
}

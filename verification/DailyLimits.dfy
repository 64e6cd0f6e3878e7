/**
 * The daily limits over runs of the ledger: of what counts since the start of the latest day, which is what an
 * admission looks at, and of every calendar day, which is what the limits are meant for.
 */
module DailyLimits {
  import opened AccountDeletion
  import opened AccountMerge
  import opened Aliases
  import opened LedgerRuns
  import opened Sequences
  import opened UsageLedger
  import opened Wrappers

  /** Rows since a moment, or rows of one calendar day. */
  datatype Window = Since(from: int) | Day(number: int)

  function DayOf(at: int): int {
    at / DAY
  }

  function Today(now: int): Window {
    Since(DayStart(now))
  }

  predicate Falls(e: Entry, w: Window) {
    match w
    case Since(from) => from <= e.createdAt
    case Day(d) => DayOf(e.createdAt) == d
  }

  predicate Active(e: Entry) {
    e.usageType == AI_TASK && e.state in {Reserved, Consumed}
  }

  /** Cost of the rows that admissions made and that still count. */
  function AdmittedCost(w: Window): Entry -> real {
    (e: Entry) => if e.taskId.Some? && Active(e) && Falls(e, w) then e.cost else 0.0
  }

  /** Cost of all rows that still count. */
  function HeldCost(w: Window): Entry -> real {
    (e: Entry) => if Active(e) && Falls(e, w) then e.cost else 0.0
  }

  function AdmittedTasks(owners: set<User>, w: Window): Entry -> real {
    (e: Entry) => if e.taskId.Some? && e.owner in owners && Active(e) && Falls(e, w) then e.quantity as real else 0.0
  }

  /** What admissions reserved or consumed is within the cost limit. */
  predicate CostWithin(b: Books, w: Window) {
    Sum(b.rows, AdmittedCost(w)) <= GLOBAL_COST_LIMIT
  }

  /** All that is reserved or consumed is within the cost limit. */
  predicate HeldWithin(b: Books, w: Window) {
    Sum(b.rows, HeldCost(w)) <= GLOBAL_COST_LIMIT
  }

  /** How many tasks admissions gave the user under any alias. */
  ghost function TasksIn(t: Table, b: Books, u: User, w: Window): real
    requires HasRoot(t, u)
  {
    Sum(b.rows, AdmittedTasks(Class(t, u), w))
  }

  ghost predicate TasksWithin(t: Table, b: Books, w: Window) {
    forall u :: HasRoot(t, u) ==> TasksIn(t, b, u, w) <= AI_TASKS_PER_DAY as real
  }

  ghost predicate CostEachDay(b: Books) {
    forall d: int :: CostWithin(b, Day(d))
  }

  ghost predicate HeldEachDay(b: Books) {
    forall d: int :: HeldWithin(b, Day(d))
  }

  ghost predicate TasksEachDay(t: Table, b: Books) {
    forall d: int :: TasksWithin(t, b, Day(d))
  }

  /** The held cost of the latest day is what the code's own query sums up. */
  lemma HeldIsAdmissionCost(rows: seq<Entry>, since: int)
    ensures Sum(rows, HeldCost(Since(since))) == AdmissionCost(rows, since)
  {
    SumAtMost(rows, HeldCost(Since(since)), CostIn({Reserved, Consumed}, since));
    SumAtMost(rows, CostIn({Reserved, Consumed}, since), HeldCost(Since(since)));
  }

  // ----- what one step adds -----

  /** The row that an operation adds. */
  ghost function NewRow(s: State, op: Op): Option<Entry> {
    match op
    case Append(user, id, traceId, now, cost) =>
      if cost < 0.0 || !HasRoot(s.aliases, user) then None
      else Some(DirectUse(Root(s.aliases, user), id, traceId, now, cost))
    case Admit(q, _) =>
      if || q.cost < 0.0 || !HasRoot(s.aliases, q.user)
         || FindRecord(s.books.records, Class(s.aliases, q.user), q.key, q.pick).Some?
         || !Decide(s.books.rows, Class(s.aliases, q.user), q).allowed then None
      else Some(Reservation(Root(s.aliases, q.user), q))
    case _ => None
  }

  /** A sum whose shares no settlement raises changes by the new row, and otherwise only falls. */
  lemma SumStep(s: State, op: Op, share: Entry -> real)
    requires NoNegativeCost(s.books)
    requires forall e: Entry, f: Entry :: GuardAllows(e, f) && 0.0 <= e.cost ==> share(f) <= share(e)
    ensures var before, after := Sum(s.books.rows, share), Sum(Next(s, op).books.rows, share);
            if NewRow(s, op).Some? then after == before + share(NewRow(s, op).value) else after <= before
  {
    hide HasRoot, Class, Deletable;
    match op
    case Append(user, id, traceId, now, cost) =>
      if NewRow(s, op).Some? {
        SumAppend(s.books.rows, NewRow(s, op).value, share);
      }
    case Admit(q, _) =>
      if NewRow(s, op).Some? {
        SumAppend(s.books.rows, NewRow(s, op).value, share);
      }
    case Update(i, entry) =>
      if AfterUpdate(s.books, i, entry) != s.books {
        SumUpdate(s.books.rows, i, entry, share);
      }
    case _ =>
  }

  /** The step adds an admitted row to the window for whose cost no room is left. */
  ghost predicate Overspends(s: State, op: Op, w: Window) {
    && NewRow(s, op).Some?
    && var row := NewRow(s, op).value;
       row.taskId.Some? && Falls(row, w) && Sum(s.books.rows, AdmittedCost(w)) + row.cost > GLOBAL_COST_LIMIT
  }

  /** The step adds any row to the window for whose cost no room is left. */
  ghost predicate Overdraws(s: State, op: Op, w: Window) {
    && NewRow(s, op).Some?
    && var row := NewRow(s, op).value;
       Falls(row, w) && Sum(s.books.rows, HeldCost(w)) + row.cost > GLOBAL_COST_LIMIT
  }

  /** The step admits one task too many for its owner. */
  ghost predicate Overloads(s: State, op: Op, w: Window) {
    && NewRow(s, op).Some?
    && var row := NewRow(s, op).value;
       && row.taskId.Some? && Falls(row, w) && HasRoot(s.aliases, row.owner)
       && TasksIn(s.aliases, s.books, row.owner, w) + 1.0 > AI_TASKS_PER_DAY as real
  }

  /** A merge that joins two accounts whose tasks are more than one account may have. */
  ghost predicate Overfills(s: State, op: Op, w: Window) {
    && op.MergeUsers? && Allowed(s.users, s.aliases, op.merge) && HasRoot(s.aliases, op.merge.source)
    && TasksIn(s.aliases, s.books, op.merge.source, w) + TasksIn(s.aliases, s.books, op.merge.target, w)
       > AI_TASKS_PER_DAY as real
  }

  lemma CostStep(s: State, op: Op, w: Window)
    requires NoNegativeCost(s.books) && CostWithin(s.books, w)
    ensures CostWithin(Next(s, op).books, w) <==> !Overspends(s, op, w)
  {
    hide Next, NewRow;
    SumStep(s, op, AdmittedCost(w));
    NewRowIs(s, op);
  }

  lemma HeldStep(s: State, op: Op, w: Window)
    requires NoNegativeCost(s.books) && HeldWithin(s.books, w)
    ensures HeldWithin(Next(s, op).books, w) <==> !Overdraws(s, op, w)
  {
    hide Next, NewRow;
    SumStep(s, op, HeldCost(w));
    NewRowIs(s, op);
  }

  lemma NewRowIs(s: State, op: Op)
    ensures NewRow(s, op).Some? ==>
              var row := NewRow(s, op).value;
              && Active(row) && row.quantity == 1 && 0.0 <= row.cost && HasRoot(s.aliases, row.owner)
              && (row.taskId.Some? <==> op.Admit?)
    ensures NewRow(s, op).Some? && op.Admit? ==>
              && NewRow(s, op).value == Reservation(Root(s.aliases, op.request.user), op.request)
              && HasRoot(s.aliases, op.request.user)
              && Decide(s.books.rows, Class(s.aliases, op.request.user), op.request).allowed
    ensures NewRow(s, op).Some? ==> op.Append? || op.Admit?
    ensures op.Append? || op.Admit? || op.Update? ==> Next(s, op).aliases == s.aliases
  {
    match op
    case Append(user, _, _, _, _) =>
      if HasRoot(s.aliases, user) {
        SourceIsRoot(s.aliases, Root(s.aliases, user));
      }
    case Admit(q, _) =>
      if HasRoot(s.aliases, q.user) {
        SourceIsRoot(s.aliases, Root(s.aliases, q.user));
      }
    case _ =>
  }

  lemma SameClassOfRoot(t: Table, u: User, v: User)
    requires HasRoot(t, u) && HasRoot(t, v) && v in Class(t, u)
    ensures Class(t, u) == Class(t, v)
  {
    ClassIsSameRoot(t, u, v);
  }

  /** The tasks of a merged account are those of the two. */
  lemma TasksAdd(users: set<User>, t: Table, m: Merge, b: Books, w: Window)
    requires Forest(t) && Allowed(users, t, m) && HasRoot(t, m.source)
    ensures HasRoot(AfterMerge(users, t, m), m.target)
    ensures TasksIn(AfterMerge(users, t, m), b, m.target, w) == TasksIn(t, b, m.source, w) + TasksIn(t, b, m.target, w)
  {
    var source, target := Class(t, m.source), Class(t, m.target);
    ClassIsSameRoot(t, m.target, m.target);
    ClassAfterMerge(users, t, m, m.target);
    SourceIsRoot(t, m.source);
    forall v ensures !(v in source && v in target) {
      ClassIsSameRoot(t, m.source, v);
      ClassIsSameRoot(t, m.target, v);
    }
    SumOfParts(b.rows, AdmittedTasks(source + target, w), AdmittedTasks(source, w), AdmittedTasks(target, w));
  }

  /** From within the limit, a merge leaves it exactly when the two accounts have too many tasks between them. */
  lemma MergeTasksExactly(users: set<User>, t: Table, m: Merge, b: Books, w: Window)
    requires Forest(t) && Allowed(users, t, m) && HasRoot(t, m.source) && TasksWithin(t, b, w)
    ensures TasksWithin(AfterMerge(users, t, m), b, w)
       <==> TasksIn(t, b, m.source, w) + TasksIn(t, b, m.target, w) <= AI_TASKS_PER_DAY as real
  {
    var after := AfterMerge(users, t, m);
    TasksAdd(users, t, m, b, w);
    if TasksIn(after, b, m.target, w) <= AI_TASKS_PER_DAY as real {
      forall u | HasRoot(after, u) ensures TasksIn(after, b, u, w) <= AI_TASKS_PER_DAY as real {
        assert HasRoot(t, u);
        ClassAfterMerge(users, t, m, u);
        ClassAfterMerge(users, t, m, m.target);
        ClassIsSameRoot(t, m.target, m.target);
        assert TasksIn(t, b, u, w) <= AI_TASKS_PER_DAY as real;
      }
    }
  }

  lemma DeletionTasks(t: Table, b: Books, u: User, records: seq<Record>, w: Window)
    requires Forest(t) && HasRoot(t, u) && TasksWithin(t, b, w)
    ensures TasksWithin(t - Class(t, u), b.(records := records), w)
  {
    var after := t - Class(t, u);
    forall v | HasRoot(after, v) ensures TasksIn(after, b.(records := records), v, w) <= AI_TASKS_PER_DAY as real {
      ClassAfterDeletion(t, u, v);
      ClassIsSameRoot(t, v, v);
      if v in Class(t, u) {
        SameClassOfRoot(t, u, v);
      }
      SumAtMost(b.rows, AdmittedTasks(Class(after, v), w), AdmittedTasks(Class(t, v), w));
      assert TasksIn(t, b, v, w) <= AI_TASKS_PER_DAY as real;
    }
  }

  /** Steps that leave the aliases alone. */
  lemma RowTasksStep(s: State, op: Op, w: Window)
    requires NoNegativeCost(s.books) && TasksWithin(s.aliases, s.books, w) && (op.Append? || op.Admit? || op.Update?)
    ensures TasksWithin(Next(s, op).aliases, Next(s, op).books, w) <==> !Overloads(s, op, w)
  {
    hide Next, NewRow, HasRoot, Class;
    NewRowIs(s, op);
    var t, after := s.aliases, Next(s, op);
    forall u | HasRoot(t, u)
      ensures TasksIn(t, after.books, u, w)
              <= TasksIn(t, s.books, u, w)
                 + (if NewRow(s, op).Some? then AdmittedTasks(Class(t, u), w)(NewRow(s, op).value) else 0.0)
      ensures NewRow(s, op).Some? ==>
                TasksIn(t, after.books, u, w)
                == TasksIn(t, s.books, u, w) + AdmittedTasks(Class(t, u), w)(NewRow(s, op).value)
    {
      SumStep(s, op, AdmittedTasks(Class(t, u), w));
    }
    if NewRow(s, op).Some? {
      var row := NewRow(s, op).value;
      ClassIsSameRoot(t, row.owner, row.owner);
      forall u | HasRoot(t, u) && row.owner in Class(t, u) ensures Class(t, u) == Class(t, row.owner) {
        SameClassOfRoot(t, u, row.owner);
      }
      assert TasksIn(t, after.books, row.owner, w)
             == TasksIn(t, s.books, row.owner, w) + AdmittedTasks(Class(t, row.owner), w)(row);
    }
  }

  /** From within the limit, one step leaves it exactly by admitting a task too many or by such a merge. */
  lemma TasksStep(s: State, op: Op, w: Window)
    requires NoNegativeCost(s.books) && Forest(s.aliases) && TasksWithin(s.aliases, s.books, w)
    ensures TasksWithin(Next(s, op).aliases, Next(s, op).books, w) <==> !Overloads(s, op, w) && !Overfills(s, op, w)
  {
    hide TasksWithin, TasksIn, Class;
    match op
    case MergeUsers(m, _) =>
      assert HasRoot(s.aliases, m.source);
      if Allowed(s.users, s.aliases, m) {
        MergeTasksExactly(s.users, s.aliases, m, s.books, w);
      }
    case DeleteAccount(u) =>
      if Deletable(s.aliases, s.books.rows, u) {
        DeletionTasks(s.aliases, s.books, u, Without(s.books.records, Class(s.aliases, u)), w);
      }
    case SignUp(_) =>
    case Delete(_) =>
    case _ => RowTasksStep(s, op, w);
  }

  // ----- what the check of an admission covers -----

  lemma {:induction false} WholeNumber(rows: seq<Entry>, owners: set<User>, since: int) returns (n: int)
    ensures TasksOf(rows, owners, since) == n as real
  {
    n := 0;
    if rows != [] {
      var last := rows[|rows| - 1];
      n := WholeNumber(rows[..|rows| - 1], owners, since);
      if last.owner in owners && Counts(last, {Reserved, Consumed}, since) {
        n := n + last.quantity;
      }
    }
  }

  /** An admission keeps the limits of every window that begins no earlier than the day it has looked at. */
  lemma CheckCovers(s: State, op: Op, w: Window)
    requires op.Admit? && NoNegativeCost(s.books)
    requires forall e: Entry :: Falls(e, w) ==> op.request.dayStart <= e.createdAt
    ensures !Overspends(s, op, w) && !Overdraws(s, op, w) && !Overloads(s, op, w)
  {
    hide Next, NewRow, HasRoot, Class;
    NewRowIs(s, op);
    if NewRow(s, op).Some? {
      var q, rows := op.request, s.books.rows;
      SumAtMost(rows, AdmittedCost(w), CostIn({Reserved, Consumed}, q.dayStart));
      SumAtMost(rows, HeldCost(w), CostIn({Reserved, Consumed}, q.dayStart));
      var owner := Root(s.aliases, q.user);
      RootIsInClass(s.aliases, q.user);
      SameClassOfRoot(s.aliases, q.user, owner);
      SumAtMost(rows, AdmittedTasks(Class(s.aliases, owner), w),
                QuantityIn(Class(s.aliases, q.user), {Reserved, Consumed}, q.dayStart));
      var n := WholeNumber(rows, Class(s.aliases, q.user), q.dayStart);
    }
  }

  lemma RootIsInClass(t: Table, u: User)
    requires HasRoot(t, u)
    ensures Root(t, u) in Class(t, u)
  {
  }

  lemma DayStartGrows(now: int, later: int)
    requires now <= later
    ensures DayStart(now) <= DayStart(later) <= later
    ensures DayStart(later) == DayStart(now) || now < DayStart(later)
  {
    var d, e := DayOf(now), DayOf(later);
    assert DayStart(now) == d * DAY && DayStart(later) == e * DAY;
  }

  lemma DayOfStart(at: int, other: int)
    requires DayOf(at) == DayOf(other)
    ensures DayStart(at) == DayStart(other) <= at
  {
    assert DayStart(at) == DayOf(at) * DAY && DayStart(other) == DayOf(other) * DAY;
  }

  /** Of what counts since the start of the latest day an admission never takes too much. */
  lemma CoversToday(s: State, op: Op, later: int)
    requires AsServed(op) && op.Admit? && op.now <= later && NoNegativeCost(s.books)
    ensures !Overspends(s, op, Today(later)) && !Overdraws(s, op, Today(later)) && !Overloads(s, op, Today(later))
  {
    hide Next, NewRow;
    DayStartGrows(op.now, later);
    NewRowIs(s, op);
    if DayStart(op.now) == DayStart(later) {
      CheckCovers(s, op, Today(later));
    }
  }

  /** The day on which the operation's new row is created. */
  ghost function ItsDay(s: State, op: Op): Window {
    if NewRow(s, op).Some? then Day(DayOf(NewRow(s, op).value.createdAt)) else Day(0)
  }

  /** An admission takes too much of a calendar day only if it was created before the day it has looked at. */
  lemma OnlyAcrossMidnight(s: State, op: Op)
    requires AsServed(op) && op.Admit? && NoNegativeCost(s.books)
    requires Overspends(s, op, ItsDay(s, op)) || Overdraws(s, op, ItsDay(s, op)) || Overloads(s, op, ItsDay(s, op))
    ensures DayStart(op.request.createdAt) < op.request.dayStart
  {
    hide Next, NewRow;
    var q, w := op.request, Day(DayOf(op.request.createdAt));
    NewRowIs(s, op);
    DayStartGrows(q.createdAt, op.now);
    if DayStart(q.createdAt) >= q.dayStart {
      forall e: Entry | Falls(e, w) ensures q.dayStart <= e.createdAt {
        DayOfStart(e.createdAt, q.createdAt);
      }
      CheckCovers(s, op, w);
    }
  }

  // ----- every calendar day -----

  /** From within the limit on every day, a step leaves it exactly when it takes too much of its own day. */
  lemma CostEachDayExactly(s: State, op: Op)
    requires NoNegativeCost(s.books) && CostEachDay(s.books)
    ensures CostEachDay(Next(s, op).books) <==> !Overspends(s, op, ItsDay(s, op))
  {
    hide Next, NewRow, CostWithin;
    forall d: int ensures CostWithin(Next(s, op).books, Day(d)) <==> !Overspends(s, op, Day(d)) {
      CostStep(s, op, Day(d));
    }
    if Overspends(s, op, ItsDay(s, op)) {
      var d := ItsDay(s, op).number;
      assert !CostWithin(Next(s, op).books, Day(d));
    }
  }

  lemma HeldEachDayExactly(s: State, op: Op)
    requires NoNegativeCost(s.books) && HeldEachDay(s.books)
    ensures HeldEachDay(Next(s, op).books) <==> !Overdraws(s, op, ItsDay(s, op))
  {
    hide Next, NewRow, HeldWithin;
    forall d: int ensures HeldWithin(Next(s, op).books, Day(d)) <==> !Overdraws(s, op, Day(d)) {
      HeldStep(s, op, Day(d));
    }
    if Overdraws(s, op, ItsDay(s, op)) {
      var d := ItsDay(s, op).number;
      assert !HeldWithin(Next(s, op).books, Day(d));
    }
  }

  /** A task too many on its own day, or a merge that joins too many tasks of some day. */
  ghost predicate OverloadsADay(s: State, op: Op) {
    Overloads(s, op, ItsDay(s, op)) || exists d: int :: Overfills(s, op, Day(d))
  }

  lemma TasksEachDayExactly(s: State, op: Op)
    requires NoNegativeCost(s.books) && Forest(s.aliases) && TasksEachDay(s.aliases, s.books)
    ensures TasksEachDay(Next(s, op).aliases, Next(s, op).books) <==> !OverloadsADay(s, op)
  {
    hide Next, NewRow, TasksWithin, Overfills, HasRoot, Forest;
    var after := Next(s, op);
    forall d: int
      ensures TasksWithin(after.aliases, after.books, Day(d))
         <==> !Overloads(s, op, Day(d)) && !Overfills(s, op, Day(d))
    {
      TasksStep(s, op, Day(d));
    }
    if OverloadsADay(s, op) {
      var d: int :| Overloads(s, op, Day(d)) || Overfills(s, op, Day(d));
      assert !TasksWithin(after.aliases, after.books, Day(d));
    }
  }

  lemma {:induction false} RunKeepsCosts(s: State, ops: seq<Op>, k: nat)
    requires NoNegativeCost(s.books)
    ensures NoNegativeCost(At(s, ops, k).books)
  {
    ConsumedNeverFalls(s, if k < |ops| then ops[..k] else ops, 0);
  }

  /** Step `k` admits a task for whose cost its day has no room left. */
  ghost predicate OverspendsAt(s: State, ops: seq<Op>, k: nat) {
    k < |ops| && Overspends(At(s, ops, k), ops[k], ItsDay(At(s, ops, k), ops[k]))
  }

  lemma CostEachDayAt(s: State, ops: seq<Op>, k: nat)
    requires k < |ops| && NoNegativeCost(s.books) && CostEachDay(At(s, ops, k).books)
    ensures CostEachDay(At(s, ops, k + 1).books) <==> !OverspendsAt(s, ops, k)
  {
    hide Next, CostEachDay, NoNegativeCost, Overspends, ItsDay;
    RunKeepsCosts(s, ops, k);
    AtNext(s, ops, 0, k);
    CostEachDayExactly(At(s, ops, k), ops[k]);
  }

  /** The admitted cost of every day is within the limit all through a run exactly when no admission overspends. */
  lemma CostEachDayThroughout(s: State, ops: seq<Op>)
    requires NoNegativeCost(s.books) && CostEachDay(s.books)
    ensures (forall k: nat :: k <= |ops| ==> CostEachDay(At(s, ops, k).books))
       <==> (forall k: nat :: k < |ops| ==> !OverspendsAt(s, ops, k))
  {
    assert At(s, ops, 0) == s;
    hide *;
    forall k: nat | k < |ops| && CostEachDay(At(s, ops, k).books)
      ensures CostEachDay(At(s, ops, k + 1).books) <==> !OverspendsAt(s, ops, k)
    {
      CostEachDayAt(s, ops, k);
    }
    var holds := (k: nat) => CostEachDay(At(s, ops, k).books);
    var happens := (k: nat) => OverspendsAt(s, ops, k);
    Throughout(|ops|, holds, happens);
    assert forall k: nat :: holds(k) <==> CostEachDay(At(s, ops, k).books);
    assert forall k: nat :: happens(k) <==> OverspendsAt(s, ops, k);
  }

  /** Step `k` adds a row for whose cost its day has no room left. */
  ghost predicate OverdrawsAt(s: State, ops: seq<Op>, k: nat) {
    k < |ops| && Overdraws(At(s, ops, k), ops[k], ItsDay(At(s, ops, k), ops[k]))
  }

  lemma HeldEachDayAt(s: State, ops: seq<Op>, k: nat)
    requires k < |ops| && NoNegativeCost(s.books) && HeldEachDay(At(s, ops, k).books)
    ensures HeldEachDay(At(s, ops, k + 1).books) <==> !OverdrawsAt(s, ops, k)
  {
    hide Next, HeldEachDay, NoNegativeCost, Overdraws, ItsDay;
    RunKeepsCosts(s, ops, k);
    AtNext(s, ops, 0, k);
    HeldEachDayExactly(At(s, ops, k), ops[k]);
  }

  /** The same for all that is held, with use that is recorded directly. */
  lemma HeldEachDayThroughout(s: State, ops: seq<Op>)
    requires NoNegativeCost(s.books) && HeldEachDay(s.books)
    ensures (forall k: nat :: k <= |ops| ==> HeldEachDay(At(s, ops, k).books))
       <==> (forall k: nat :: k < |ops| ==> !OverdrawsAt(s, ops, k))
  {
    assert At(s, ops, 0) == s;
    hide *;
    forall k: nat | k < |ops| && HeldEachDay(At(s, ops, k).books)
      ensures HeldEachDay(At(s, ops, k + 1).books) <==> !OverdrawsAt(s, ops, k)
    {
      HeldEachDayAt(s, ops, k);
    }
    var holds := (k: nat) => HeldEachDay(At(s, ops, k).books);
    var happens := (k: nat) => OverdrawsAt(s, ops, k);
    Throughout(|ops|, holds, happens);
    assert forall k: nat :: holds(k) <==> HeldEachDay(At(s, ops, k).books);
    assert forall k: nat :: happens(k) <==> OverdrawsAt(s, ops, k);
  }

  /** Step `k` admits a task too many for its day, or merges accounts with too many tasks of a day. */
  ghost predicate OverloadsADayAt(s: State, ops: seq<Op>, k: nat) {
    k < |ops| && OverloadsADay(At(s, ops, k), ops[k])
  }

  lemma TasksEachDayAt(s: State, ops: seq<Op>, k: nat)
    requires k < |ops| && NoNegativeCost(s.books) && Forest(s.aliases)
    requires TasksEachDay(At(s, ops, k).aliases, At(s, ops, k).books)
    ensures TasksEachDay(At(s, ops, k + 1).aliases, At(s, ops, k + 1).books) <==> !OverloadsADayAt(s, ops, k)
  {
    hide Next, TasksEachDay, NoNegativeCost, OverloadsADay, Forest;
    RunKeepsCosts(s, ops, k);
    AtNext(s, ops, 0, k);
    RunKeepsForest(s, ops[..k]);
    TasksEachDayExactly(At(s, ops, k), ops[k]);
  }

  /** Every user with all aliases has at most twenty tasks a day exactly when no admission or merge overloads a day. */
  lemma TasksEachDayThroughout(s: State, ops: seq<Op>)
    requires NoNegativeCost(s.books) && Forest(s.aliases) && TasksEachDay(s.aliases, s.books)
    ensures (forall k: nat :: k <= |ops| ==> TasksEachDay(At(s, ops, k).aliases, At(s, ops, k).books))
       <==> (forall k: nat :: k < |ops| ==> !OverloadsADayAt(s, ops, k))
  {
    assert At(s, ops, 0) == s;
    hide *;
    forall k: nat | k < |ops| && TasksEachDay(At(s, ops, k).aliases, At(s, ops, k).books)
      ensures TasksEachDay(At(s, ops, k + 1).aliases, At(s, ops, k + 1).books) <==> !OverloadsADayAt(s, ops, k)
    {
      TasksEachDayAt(s, ops, k);
    }
    var holds := (k: nat) => TasksEachDay(At(s, ops, k).aliases, At(s, ops, k).books);
    var happens := (k: nat) => OverloadsADayAt(s, ops, k);
    Throughout(|ops|, holds, happens);
    assert forall k: nat :: holds(k) <==> TasksEachDay(At(s, ops, k).aliases, At(s, ops, k).books);
    assert forall k: nat :: happens(k) <==> OverloadsADayAt(s, ops, k);
  }

  /** An admission whose creation time lies on the day it has looked at, as with a single reading of the clock. */
  predicate OnItsDay(op: Op) {
    AsServed(op) && (op.Admit? ==> DayStart(op.request.createdAt) == op.request.dayStart)
  }

  /** It takes too much of no day. */
  lemma OnItsDayFits(s: State, op: Op)
    requires OnItsDay(op) && NoNegativeCost(s.books)
    ensures !Overspends(s, op, ItsDay(s, op)) && !Overloads(s, op, ItsDay(s, op))
  {
    hide NewRow;
    if op.Admit? {
      if Overspends(s, op, ItsDay(s, op)) || Overloads(s, op, ItsDay(s, op)) {
        OnlyAcrossMidnight(s, op);
      }
    } else {
      NewRowIs(s, op);
    }
  }

  /** Then the admitted cost of every day stays within the limit over every run. */
  lemma {:induction false} CostEachDayHolds(s: State, ops: seq<Op>)
    requires NoNegativeCost(s.books) && CostEachDay(s.books)
    requires forall i :: 0 <= i < |ops| ==> OnItsDay(ops[i])
    ensures CostEachDay(Run(s, ops).books)
  {
    hide Next, CostEachDay, NoNegativeCost, Overspends, ItsDay;
    if ops != [] {
      var last := |ops| - 1;
      var before := Run(s, ops[..last]);
      CostEachDayHolds(s, ops[..last]);
      ConsumedNeverFalls(s, ops[..last], 0);
      CostEachDayExactly(before, ops[last]);
      OnItsDayFits(before, ops[last]);
    }
  }

  // ----- the latest day -----

  ghost predicate BooksSound(b: Books, now: int) {
    NoNegativeCost(b) && forall i :: 0 <= i < |b.rows| ==> b.rows[i].createdAt <= now
  }

  lemma CostOverTime(b: Books, now: int, later: int)
    requires BooksSound(b, now) && now <= later
    ensures BooksSound(b, later)
    ensures CostWithin(b, Today(now)) ==> CostWithin(b, Today(later))
    ensures HeldWithin(b, Today(now)) ==> HeldWithin(b, Today(later))
  {
    DayStartGrows(now, later);
    SumAtMost(b.rows, AdmittedCost(Today(later)), AdmittedCost(Today(now)));
    SumAtMost(b.rows, HeldCost(Today(later)), HeldCost(Today(now)));
  }

  lemma TasksOverTime(t: Table, b: Books, now: int, later: int)
    requires TasksWithin(t, b, Today(now)) && now <= later
    ensures TasksWithin(t, b, Today(later))
  {
    DayStartGrows(now, later);
    forall u | HasRoot(t, u) ensures TasksIn(t, b, u, Today(later)) <= AI_TASKS_PER_DAY as real {
      SumAtMost(b.rows, AdmittedTasks(Class(t, u), Today(later)), AdmittedTasks(Class(t, u), Today(now)));
    }
  }

  lemma StepKeepsBooks(s: State, op: Op, from: int)
    requires AsServed(op) && BooksSound(s.books, from)
    ensures BooksSound(Next(s, op).books, Later(from, op)) && from <= Later(from, op)
  {
    hide HasRoot, Class, Deletable;
    StepKeepsConsumed(s, op, 0);
  }

  lemma StepKeepsCost(s: State, op: Op, from: int)
    requires AsServed(op) && BooksSound(s.books, from) && CostWithin(s.books, Today(from))
    ensures CostWithin(Next(s, op).books, Today(Later(from, op)))
  {
    hide Next, NewRow, CostWithin;
    var later := Later(from, op);
    CostOverTime(s.books, from, later);
    CostStep(s, op, Today(later));
    if op.Admit? {
      CoversToday(s, op, later);
    } else {
      NewRowIs(s, op);
    }
  }

  /** Over every run the admitted cost since the start of the latest day stays within the limit. */
  lemma {:induction false} CostLimitHolds(s: State, ops: seq<Op>, from: int)
    requires BooksSound(s.books, from) && forall i :: 0 <= i < |ops| ==> AsServed(ops[i])
    ensures BooksSound(Run(s, ops).books, TimeAfter(from, ops))
    ensures CostWithin(s.books, Today(from)) ==> CostWithin(Run(s, ops).books, Today(TimeAfter(from, ops)))
  {
    hide Next, BooksSound, CostWithin, AsServed;
    if ops != [] {
      var last := |ops| - 1;
      CostLimitHolds(s, ops[..last], from);
      StepKeepsBooks(Run(s, ops[..last]), ops[last], TimeAfter(from, ops[..last]));
      if CostWithin(s.books, Today(from)) {
        StepKeepsCost(Run(s, ops[..last]), ops[last], TimeAfter(from, ops[..last]));
      }
    }
  }

  lemma CostLimitHoldsFromEmpty(users: set<User>, t: Table, ops: seq<Op>, from: int)
    requires forall i :: 0 <= i < |ops| ==> AsServed(ops[i])
    ensures CostWithin(Run(State(users, t, Books([], [])), ops).books, Today(TimeAfter(from, ops)))
  {
    CostLimitHolds(State(users, t, Books([], [])), ops, from);
  }

  /** Directly recorded use of the latest day for which no room is left. */
  ghost predicate Overshoots(s: State, op: Op, later: int) {
    && op.Append? && 0.0 <= op.cost && HasRoot(s.aliases, op.user) && DayStart(later) <= op.now
    && AdmissionCost(s.books.rows, DayStart(later)) + op.cost > GLOBAL_COST_LIMIT
  }

  /** From within the limit, one step leaves it exactly by direct use for which no room is left. */
  lemma HeldExactly(s: State, op: Op, from: int)
    requires AsServed(op) && BooksSound(s.books, from) && HeldWithin(s.books, Today(from))
    ensures var later := Later(from, op);
            HeldWithin(Next(s, op).books, Today(later)) <==> !Overshoots(s, op, later)
  {
    hide Next, HeldWithin;
    var later := Later(from, op);
    CostOverTime(s.books, from, later);
    HeldStep(s, op, Today(later));
    HeldIsAdmissionCost(s.books.rows, DayStart(later));
    if op.Admit? {
      CoversToday(s, op, later);
    }
  }

  ghost predicate HeldWithinAt(s: State, ops: seq<Op>, from: int, k: nat) {
    HeldWithin(At(s, ops, k).books, Today(Time(from, ops, k)))
  }

  /** Step `k` is direct use for which the latest day has no room left. */
  ghost predicate OvershootsAt(s: State, ops: seq<Op>, from: int, k: nat) {
    k < |ops| && Overshoots(At(s, ops, k), ops[k], Time(from, ops, k + 1))
  }

  lemma HeldStepAt(s: State, ops: seq<Op>, from: int, k: nat)
    requires k < |ops| && BooksSound(s.books, from)
    requires (forall i :: 0 <= i < |ops| ==> AsServed(ops[i])) && HeldWithinAt(s, ops, from, k)
    ensures HeldWithinAt(s, ops, from, k + 1) <==> !OvershootsAt(s, ops, from, k)
  {
    hide Next, BooksSound, HeldWithin, Overshoots, AsServed;
    CostLimitHolds(s, ops[..k], from);
    AtNext(s, ops, from, k);
    HeldExactly(At(s, ops, k), ops[k], Time(from, ops, k));
  }

  /** The held cost of the latest day is within the limit all through a run exactly when no direct use overshoots. */
  lemma HeldThroughout(s: State, ops: seq<Op>, from: int)
    requires BooksSound(s.books, from) && HeldWithin(s.books, Today(from))
    requires forall i :: 0 <= i < |ops| ==> AsServed(ops[i])
    ensures (forall k: nat :: k <= |ops| ==> HeldWithinAt(s, ops, from, k))
       <==> (forall k: nat :: k < |ops| ==> !OvershootsAt(s, ops, from, k))
  {
    assert At(s, ops, 0) == s && Time(from, ops, 0) == from;
    assert HeldWithinAt(s, ops, from, 0);
    hide *;
    forall k: nat | k < |ops| && HeldWithinAt(s, ops, from, k)
      ensures HeldWithinAt(s, ops, from, k + 1) <==> !OvershootsAt(s, ops, from, k)
    {
      HeldStepAt(s, ops, from, k);
    }
    var holds := (k: nat) => HeldWithinAt(s, ops, from, k);
    var happens := (k: nat) => OvershootsAt(s, ops, from, k);
    Throughout(|ops|, holds, happens);
    assert forall k: nat :: holds(k) <==> HeldWithinAt(s, ops, from, k);
    assert forall k: nat :: happens(k) <==> OvershootsAt(s, ops, from, k);
  }

  /** From within the limit, one step leaves it exactly by a merge that joins too many tasks of the latest day. */
  lemma TasksExactly(s: State, op: Op, from: int)
    requires AsServed(op) && BooksSound(s.books, from)
    requires Forest(s.aliases) && TasksWithin(s.aliases, s.books, Today(from))
    ensures var later := Later(from, op);
            TasksWithin(Next(s, op).aliases, Next(s, op).books, Today(later)) <==> !Overfills(s, op, Today(later))
  {
    hide Next, NewRow, TasksWithin, Forest, Overfills;
    var later := Later(from, op);
    TasksOverTime(s.aliases, s.books, from, later);
    TasksStep(s, op, Today(later));
    if op.Admit? {
      CoversToday(s, op, later);
    } else {
      NewRowIs(s, op);
    }
  }

  ghost predicate TasksWithinAt(s: State, ops: seq<Op>, from: int, k: nat) {
    TasksWithin(At(s, ops, k).aliases, At(s, ops, k).books, Today(Time(from, ops, k)))
  }

  /** Step `k` is a merge that joins too many tasks of the latest day. */
  ghost predicate OverfillsAt(s: State, ops: seq<Op>, from: int, k: nat) {
    k < |ops| && Overfills(At(s, ops, k), ops[k], Today(Time(from, ops, k + 1)))
  }

  lemma TasksStepAt(s: State, ops: seq<Op>, from: int, k: nat)
    requires k < |ops| && Forest(s.aliases) && BooksSound(s.books, from)
    requires (forall i :: 0 <= i < |ops| ==> AsServed(ops[i])) && TasksWithinAt(s, ops, from, k)
    ensures TasksWithinAt(s, ops, from, k + 1) <==> !OverfillsAt(s, ops, from, k)
  {
    hide Next, BooksSound, TasksWithin, Overfills, AsServed, Forest;
    RunKeepsForest(s, ops[..k]);
    CostLimitHolds(s, ops[..k], from);
    AtNext(s, ops, from, k);
    TasksExactly(At(s, ops, k), ops[k], Time(from, ops, k));
  }

  /** Every user with all aliases is within the limit of the latest day exactly when no merge overfills. */
  lemma TasksThroughout(s: State, ops: seq<Op>, from: int)
    requires Forest(s.aliases) && BooksSound(s.books, from) && TasksWithin(s.aliases, s.books, Today(from))
    requires forall i :: 0 <= i < |ops| ==> AsServed(ops[i])
    ensures (forall k: nat :: k <= |ops| ==> TasksWithinAt(s, ops, from, k))
       <==> (forall k: nat :: k < |ops| ==> !OverfillsAt(s, ops, from, k))
  {
    assert At(s, ops, 0) == s && Time(from, ops, 0) == from;
    assert TasksWithinAt(s, ops, from, 0);
    hide *;
    forall k: nat | k < |ops| && TasksWithinAt(s, ops, from, k)
      ensures TasksWithinAt(s, ops, from, k + 1) <==> !OverfillsAt(s, ops, from, k)
    {
      TasksStepAt(s, ops, from, k);
    }
    var holds := (k: nat) => TasksWithinAt(s, ops, from, k);
    var happens := (k: nat) => OverfillsAt(s, ops, from, k);
    Throughout(|ops|, holds, happens);
    assert forall k: nat :: holds(k) <==> TasksWithinAt(s, ops, from, k);
    assert forall k: nat :: happens(k) <==> OverfillsAt(s, ops, from, k);
  }

  // ----- inputs -----

  /** One direct use past the limit from an empty ledger. */
  lemma DirectUseIsNotLimited(users: set<User>, u: User)
    ensures var op := Append(u, "usg_1", "trc_1", 0, 101.0);
            var after := Next(State(users, map[], Books([], [])), op);
            !HeldWithin(after.books, Today(0)) && !HeldEachDay(after.books)
  {
    SourceIsRoot(map[], u);
    var s, op := State(users, map[], Books([], [])), Append(u, "usg_1", "trc_1", 0, 101.0);
    HeldExactly(s, op, 0);
    HeldEachDayExactly(s, op);
  }

  /** A request of cost 100, created at the one time and checked against the day of the other. */
  function Whole(u: User, key: string, taskId: string, entryId: string, createdAt: int, dayStart: int): Request {
    Request(u, "trc", key, createdAt, dayStart, 0, false, 100.0, "hash", 0, taskId, entryId, 0)
  }

  function SlipOps(u: User): seq<Op> {
    [Admit(Whole(u, "k1", "tsk_1", "usg_1", 0, 0), 0), Admit(Whole(u, "k2", "tsk_2", "usg_2", DAY - 1, DAY), DAY)]
  }

  function SlipRow(u: User, i: nat): Entry
    requires i < 2
  {
    Reservation(u, SlipOps(u)[i].request)
  }

  /** The first request looks at an empty ledger. */
  lemma SlipFirst(users: set<User>, u: User)
    ensures var s := Next(State(users, map[], Books([], [])), SlipOps(u)[0]);
            && s.aliases == map[] && s.books.rows == [SlipRow(u, 0)]
            && |s.books.records| == 1 && s.books.records[0].key == "k1"
  {
    SourceIsRoot(map[], u);
  }

  /** The second one looks at a ledger without a row of its day. */
  lemma SlipSecond(s: State, u: User)
    requires s.aliases == map[] && s.books.rows == [SlipRow(u, 0)]
    requires |s.books.records| == 1 && s.books.records[0].key == "k1"
    ensures Next(s, SlipOps(u)[1]).books.rows == [SlipRow(u, 0)] + [SlipRow(u, 1)]
  {
    SourceIsRoot(map[], u);
    hide HasRoot, Class;
    var owners, records := Class(map[], u), s.books.records;
    assert Matching(records, owners, "k2") == [] by { assert records == [records[0]]; }
    var first := SlipRow(u, 0);
    assert [] + [first] == [first];
    SumAppend([], first, CostIn({Reserved, Consumed}, DAY));
    SumAppend([], first, QuantityIn(owners, {Reserved, Consumed}, DAY));
  }

  /**
   * Two requests of the whole limit: the second is created just before midnight and looks at the day after, where it
   * does not count. The first day holds twice the limit, and nothing is held against the second.
   */
  lemma MidnightSlip(users: set<User>, u: User)
    ensures var ops := SlipOps(u);
            var after := Run(State(users, map[], Books([], [])), ops);
            && AsServed(ops[0]) && AsServed(ops[1])
            && Sum(after.books.rows, AdmittedCost(Day(0))) == 200.0
            && Sum(after.books.rows, AdmittedCost(Today(DAY))) == 0.0
            && !CostEachDay(after.books) && CostWithin(after.books, Today(DAY))
  {
    hide Next, Reservation;
    var empty, ops := State(users, map[], Books([], [])), SlipOps(u);
    SlipFirst(users, u);
    SlipSecond(Next(empty, ops[0]), u);
    assert ops[..1] == [ops[0]] && ops[..1][..0] == [];
    assert Run(empty, ops) == Next(Next(Run(empty, []), ops[0]), ops[1]);
    SlipSums(u);
  }

  lemma SlipSums(u: User)
    ensures Sum([SlipRow(u, 0)] + [SlipRow(u, 1)], AdmittedCost(Day(0))) == 200.0
    ensures Sum([SlipRow(u, 0)] + [SlipRow(u, 1)], AdmittedCost(Today(DAY))) == 0.0
  {
    assert [] + [SlipRow(u, 0)] == [SlipRow(u, 0)];
    SumAppend([], SlipRow(u, 0), AdmittedCost(Day(0)));
    SumAppend([], SlipRow(u, 0), AdmittedCost(Today(DAY)));
    SumAppend([SlipRow(u, 0)], SlipRow(u, 1), AdmittedCost(Day(0)));
    SumAppend([SlipRow(u, 0)], SlipRow(u, 1), AdmittedCost(Today(DAY)));
  }

  /** What the table's keys demand: ids are unique, and so are task, owner and type of the rows with a task. */
  predicate KeysHold(rows: seq<Entry>) {
    forall i, j :: 0 <= i < j < |rows| ==>
                     && rows[i].id != rows[j].id
                     && (rows[i].taskId.Some? ==>
                           (rows[i].taskId, rows[i].owner, rows[i].usageType)
                           != (rows[j].taskId, rows[j].owner, rows[j].usageType))
  }

  /** Reservations of one day, as admissions make them. */
  function Reserve(u: User, ids: seq<string>, tasks: seq<string>): seq<Entry>
    requires |ids| == |tasks|
  {
    seq(|ids|, i requires 0 <= i < |ids| =>
      Entry(ids[i], u, AI_TASK, 1, 0.0, "trc", Reserved, Some(tasks[i]), None, 0, 0))
  }

  lemma {:induction false} SumOfEqual(rows: seq<Entry>, share: Entry -> real, each: real)
    requires forall i :: 0 <= i < |rows| ==> share(rows[i]) == each
    ensures Sum(rows, share) == |rows| as real * each
  {
    if rows != [] {
      SumOfEqual(rows[..|rows| - 1], share, each);
    }
  }

  lemma {:induction false} SumOfConcat(a: seq<Entry>, b: seq<Entry>, share: Entry -> real)
    ensures Sum(a + b, share) == Sum(a, share) + Sum(b, share)
  {
    if b == [] {
      assert a + b == a;
    } else {
      assert (a + b)[..|a + b| - 1] == a + b[..|b| - 1];
      SumOfConcat(a, b[..|b| - 1], share);
    }
  }

  /** A window that takes in a row created at time 0. */
  predicate TakesInStart(w: Window) {
    if w.Since? then w.from <= 0 else w.number == 0
  }

  lemma ReservedIn(u: User, ids: seq<string>, tasks: seq<string>, owners: set<User>, w: Window)
    requires |ids| == |tasks|
    ensures Sum(Reserve(u, ids, tasks), AdmittedTasks(owners, w))
         == if u in owners && TakesInStart(w) then |ids| as real else 0.0
  {
    SumOfEqual(Reserve(u, ids, tasks), AdmittedTasks(owners, w), if u in owners && TakesInStart(w) then 1.0 else 0.0);
  }

  /** A ledger with all twenty tasks of one user's day. */
  function FullDay(users: set<User>, u: User, ids: seq<string>, tasks: seq<string>): State
    requires |ids| == |tasks| == 20
  {
    State(users, map[], Books(Reserve(u, ids, tasks), []))
  }

  /** Twenty tasks on one day, then a request created just before midnight that looks at the day after: twenty-one. */
  lemma MidnightTask(users: set<User>, q: Request, ids: seq<string>, tasks: seq<string>)
    requires |ids| == |tasks| == 20 && NoDup(ids) && NoDup(tasks)
    requires q.createdAt == DAY - 1 && q.dayStart == DAY && q.cost == 0.0 && q.running == 0
    ensures var s, op := FullDay(users, q.user, ids, tasks), Admit(q, DAY);
            && KeysHold(s.books.rows) && AsServed(op) && TasksEachDay(s.aliases, s.books)
            && !TasksWithin(Next(s, op).aliases, Next(s, op).books, Day(0))
            && TasksWithin(Next(s, op).aliases, Next(s, op).books, Today(DAY))
  {
    var s, op := FullDay(users, q.user, ids, tasks), Admit(q, DAY);
    EmptyTable();
    forall x, w | HasRoot(s.aliases, x) ensures TasksIn(s.aliases, s.books, x, w) <= AI_TASKS_PER_DAY as real {
      ReservedIn(q.user, ids, tasks, {x}, w);
    }
    SumOfEqual(s.books.rows, CostIn({Reserved, Consumed}, DAY), 0.0);
    SumOfEqual(s.books.rows, QuantityIn({q.user}, {Reserved, Consumed}, DAY), 0.0);
    assert Decide(s.books.rows, Class(s.aliases, q.user), q).allowed;
    assert NewRow(s, op) == Some(Reservation(q.user, q));
    ReservedIn(q.user, ids, tasks, {q.user}, Day(0));
    assert Overloads(s, op, Day(0));
    RowTasksStep(s, op, Day(0));
    CoversToday(s, op, DAY);
    RowTasksStep(s, op, Today(DAY));
  }

  lemma EmptyTable()
    ensures forall x: User :: HasRoot(map[], x) && Root(map[], x) == x && Class(map[], x) == {x}
  {
    forall x: User ensures HasRoot(map[], x) && Root(map[], x) == x && Class(map[], x) == {x} {
      SourceIsRoot(map[], x);
    }
  }

  /** Twenty reservations of each of two users. */
  function Forty(u: User, v: User, ids: seq<string>, tasks: seq<string>): seq<Entry>
    requires |ids| == |tasks| == 40
  {
    Reserve(u, ids[..20], tasks[..20]) + Reserve(v, ids[20..], tasks[20..])
  }

  lemma FortyIn(u: User, v: User, ids: seq<string>, tasks: seq<string>, owners: set<User>, w: Window)
    requires |ids| == |tasks| == 40
    ensures Sum(Forty(u, v, ids, tasks), AdmittedTasks(owners, w))
         == if !TakesInStart(w) then 0.0
            else (if u in owners then 20.0 else 0.0) + (if v in owners then 20.0 else 0.0)
  {
    var mine, theirs := Reserve(u, ids[..20], tasks[..20]), Reserve(v, ids[20..], tasks[20..]);
    SumOfConcat(mine, theirs, AdmittedTasks(owners, w));
    ReservedIn(u, ids[..20], tasks[..20], owners, w);
    ReservedIn(v, ids[20..], tasks[20..], owners, w);
  }

  /** Two accounts with all their tasks of a day, then merged: one account with forty. */
  lemma MergeOverfills(u: User, v: User, ids: seq<string>, tasks: seq<string>)
    requires u != v && |ids| == |tasks| == 40 && NoDup(ids) && NoDup(tasks)
    ensures var b := Books(Forty(u, v, ids, tasks), []);
            var merged := Next(State({u, v}, map[], b), MergeUsers(Merge(u, v), 0));
            && KeysHold(b.rows) && merged.books == b
            && TasksWithin(map[], b, Today(0)) && TasksEachDay(map[], b)
            && !TasksWithin(merged.aliases, b, Today(0)) && !TasksWithin(merged.aliases, b, Day(0))
  {
    var t: Table, b, m := map[], Books(Forty(u, v, ids, tasks), []), Merge(u, v);
    EmptyTable();
    forall x, w | HasRoot(t, x) ensures TasksIn(t, b, x, w) <= AI_TASKS_PER_DAY as real {
      FortyIn(u, v, ids, tasks, {x}, w);
    }
    forall w | w == Today(0) || w == Day(0) ensures !TasksWithin(AfterMerge({u, v}, t, m), b, w) {
      FortyIn(u, v, ids, tasks, {u}, w);
      FortyIn(u, v, ids, tasks, {v}, w);
      MergeTasksExactly({u, v}, t, m, b, w);
    }
  }
}

/**
 * What holds over every run of the dispatcher, with new rows arriving, other services moving tasks, recording events
 * and clearing payloads, and accounts being deleted between its looks at the outbox.
 */
module OutboxRuns {
  import opened Aliases
  import opened UsageLedger
  import opened Dispatcher

  /** One step of a run; the base delay is the dispatcher's. */
  datatype Step =
    | Look(index: nat, meeting: Meeting)
    | Enqueue(row: OutboxRow, task: Task)
    | MoveTask(taskId: string, target: TaskStatus)
    | ClearPayload(index: nat, snapshot: string)
    | AppendEvent(taskId: string, stage: string, progress: int, now: int)
    | DeleteAccount(owners: set<User>, taskId: string)

  /** The task transitions that other services may make. */
  predicate CanMove(current: TaskStatus, target: TaskStatus) {
    match current
    case Queued => target in {Running, Failed, Cancelled}
    case Running => target in {WaitingForUser, Succeeded, Failed, Cancelled}
    case WaitingForUser => target in {Queued, Running, Failed, Cancelled}
    case _ => false
  }

  /** A new row comes with its task and has not been tried; its task id is in neither table and was never used. */
  predicate CanEnqueue(db: Db, row: OutboxRow, task: Task) {
    && row.taskId !in db.tasks && FindRow(db.outbox, row.taskId) == |db.outbox|
    && (forall k :: 0 <= k < |db.calls| ==> db.calls[k].taskId != row.taskId)
    && task.owner == row.owner
    && row.attempts == 0 && !Settled(row)
  }

  /** The transaction that creates a task: its row, and its first event with the number 1. */
  function Enqueued(db: Db, row: OutboxRow, task: Task): Db {
    db.(outbox := db.outbox + [row], tasks := db.tasks[row.taskId := task],
        events := db.events + [TaskEvent(row.taskId, task.owner, 1, "queued", 0, row.availableAt)])
  }

  /** A service drops a snapshot from the payload of a row, settled or not. */
  function Cleared(db: Db, i: nat, snapshot: string): Db
    requires i < |db.outbox|
  {
    db.(outbox := db.outbox[i := db.outbox[i].(payload := db.outbox[i].payload - {snapshot})])
  }

  /** The outbox without the rows of the owners. */
  function RowsWithout(outbox: seq<OutboxRow>, owners: set<User>): (r: seq<OutboxRow>)
    ensures forall row :: row in r <==> row in outbox && row.owner !in owners
  {
    if outbox == [] then []
    else
      var last := outbox[|outbox| - 1];
      RowsWithout(outbox[..|outbox| - 1], owners) + if last.owner in owners then [] else [last]
  }

  /** The events without those of the owners, except the events of the deletion's own task. */
  function EventsWithout(events: seq<TaskEvent>, owners: set<User>, taskId: string): (r: seq<TaskEvent>)
    ensures forall e :: e in r <==> e in events && (e.owner !in owners || e.taskId == taskId)
  {
    if events == [] then []
    else
      var last := events[|events| - 1];
      EventsWithout(events[..|events| - 1], owners, taskId)
      + if last.owner in owners && last.taskId != taskId then [] else [last]
  }

  /** The ledger's trigger lets no row go, so only an account without a row in it can be deleted. */
  predicate CanDelete(db: Db, owners: set<User>) {
    forall i :: 0 <= i < |db.ledger| ==> db.ledger[i].owner !in owners
  }

  /** What the deletion of an account, run as the task `taskId`, leaves of these tables. */
  function Deleted(db: Db, owners: set<User>, taskId: string): Db {
    db.(outbox := RowsWithout(db.outbox, owners),
        events := EventsWithout(db.events, owners, taskId),
        tasks := map id | id in db.tasks && (db.tasks[id].owner !in owners || id == taskId) :: db.tasks[id],
        answers := map id | id in db.answers && db.answers[id].owner !in owners :: db.answers[id],
        intakes := map id | id in db.intakes && db.intakes[id].owner !in owners :: db.intakes[id],
        jobs := map id | id in db.jobs && db.jobs[id].owner !in owners :: db.jobs[id])
  }

  function After(db: Db, step: Step, base: nat): Db {
    match step
    case Look(i, m) => if i < |db.outbox| then AfterLook(db, i, m, base) else db
    case Enqueue(row, task) =>
      if CanEnqueue(db, row, task) then Enqueued(db, row, task) else db
    case MoveTask(id, target) =>
      if id in db.tasks && CanMove(db.tasks[id].status, target)
      then db.(tasks := db.tasks[id := db.tasks[id].(status := target)])
      else db
    case ClearPayload(i, snapshot) => if i < |db.outbox| then Cleared(db, i, snapshot) else db
    case AppendEvent(id, stage, progress, now) =>
      if id in db.tasks then
        var owner := db.tasks[id].owner;
        db.(events := db.events + [TaskEvent(id, owner, LastNumber(db.events, id, owner) + 1, stage, progress, now)])
      else db
    case DeleteAccount(owners, taskId) => if CanDelete(db, owners) then Deleted(db, owners, taskId) else db
  }

  function Run(db: Db, steps: seq<Step>, base: nat): Db {
    if steps == [] then db else After(Run(db, steps[..|steps| - 1], base), steps[|steps| - 1], base)
  }

  /** A call of `DispatchPending` is a run of looks. */
  lemma {:induction false} LooksAreSteps(db: Db, rows: seq<nat>, met: nat -> Meeting, base: nat)
    requires forall k :: 0 <= k < |rows| ==> rows[k] < |db.outbox|
    ensures AfterLooks(db, rows, met, base)
            == Run(db, seq(|rows|, k requires 0 <= k < |rows| => Look(rows[k], met(k))), base)
  {
    if rows != [] {
      var n := |rows| - 1;
      var steps := seq(|rows|, k requires 0 <= k < |rows| => Look(rows[k], met(k)));
      LooksAreSteps(db, rows[..n], met, base);
      assert steps[..n] == seq(n, k requires 0 <= k < n => Look(rows[..n][k], met(k)));
    }
  }

  // ----- attempts and publish calls -----

  function CallsOf(calls: seq<Call>, taskId: string): nat {
    if calls == [] then 0
    else CallsOf(calls[..|calls| - 1], taskId) + if calls[|calls| - 1].taskId == taskId then 1 else 0
  }

  lemma CallsOfAppend(calls: seq<Call>, c: Call, taskId: string)
    ensures CallsOf(calls + [c], taskId) == CallsOf(calls, taskId) + if c.taskId == taskId then 1 else 0
  {
    assert (calls + [c])[..|calls|] == calls;
  }

  lemma {:induction false} NoCalls(calls: seq<Call>, taskId: string)
    requires forall k :: 0 <= k < |calls| ==> calls[k].taskId != taskId
    ensures CallsOf(calls, taskId) == 0
  {
    if calls != [] {
      NoCalls(calls[..|calls| - 1], taskId);
    }
  }

  /** The task of the row is absent or over. */
  predicate TaskIsOver(db: Db, row: OutboxRow) {
    HasTask(db, row) ==> Terminal(db.tasks[row.taskId].status)
  }

  /** Attempts count the publish calls and stop at three; a row is settled one way, if exhausted with its task over. */
  predicate RowSound(db: Db, row: OutboxRow) {
    && row.attempts == CallsOf(db.calls, row.taskId) <= MAX_DISPATCH_ATTEMPTS
    && !(row.dispatchedAt.Some? && row.exhaustedAt.Some?)
    && (row.exhaustedAt.Some? ==> row.attempts == MAX_DISPATCH_ATTEMPTS && TaskIsOver(db, row))
    && (if Settled(row) then row.attempts > 0 else row.attempts < MAX_DISPATCH_ATTEMPTS)
  }

  /** Each task has one row. */
  predicate OneRowEach(outbox: seq<OutboxRow>) {
    forall i, j :: 0 <= i < j < |outbox| ==> outbox[i].taskId != outbox[j].taskId
  }

  ghost predicate Sound(db: Db) {
    && OneRowEach(db.outbox)
    && forall i :: 0 <= i < |db.outbox| ==> RowSound(db, db.outbox[i])
  }

  /** A look changes at most the task of its own row, and never one that is over. */
  lemma LookAtTasks(db: Db, i: nat, m: Meeting, base: nat)
    requires i < |db.outbox|
    ensures var after := AfterLook(db, i, m, base);
            && after.tasks.Keys == db.tasks.Keys
            && (forall id :: id in db.tasks ==>
                               && after.tasks[id].owner == db.tasks[id].owner
                               && (Terminal(db.tasks[id].status) ==> after.tasks[id] == db.tasks[id]))
            && (Due(db.outbox[i], m.now) && Tried(db.outbox[i], m, base).exhaustedAt.Some?
                ==> TaskIsOver(after, after.outbox[i]))
  {
  }

  lemma LookKeepsRow(db: Db, i: nat, m: Meeting, base: nat, j: nat)
    requires Sound(db) && i < |db.outbox| && j < |db.outbox|
    ensures |AfterLook(db, i, m, base).outbox| == |db.outbox|
    ensures RowSound(AfterLook(db, i, m, base), AfterLook(db, i, m, base).outbox[j])
  {
    hide AfterLook, Terminal, CallsOf;
    LookAtRow(db, i, m, base);
    LookAtTasks(db, i, m, base);
    assert RowSound(db, db.outbox[i]) && RowSound(db, db.outbox[j]);
    CallsOfAppend(db.calls, Call(db.outbox[i].taskId, m.now), db.outbox[j].taskId);
  }

  lemma LookKeepsSound(db: Db, i: nat, m: Meeting, base: nat)
    requires Sound(db) && i < |db.outbox|
    ensures Sound(AfterLook(db, i, m, base))
  {
    hide AfterLook, RowSound;
    var after := AfterLook(db, i, m, base);
    LookAtRow(db, i, m, base);
    forall j | 0 <= j < |after.outbox| ensures RowSound(after, after.outbox[j]) {
      LookKeepsRow(db, i, m, base, j);
    }
  }

  lemma EnqueueKeepsSound(db: Db, row: OutboxRow, task: Task)
    requires Sound(db) && CanEnqueue(db, row, task)
    ensures Sound(Enqueued(db, row, task))
  {
    var after := Enqueued(db, row, task);
    NoCalls(db.calls, row.taskId);
    forall i | 0 <= i < |after.outbox| ensures RowSound(after, after.outbox[i]) {
      if i < |db.outbox| {
        assert RowSound(db, db.outbox[i]) && db.outbox[i].taskId != row.taskId;
      }
    }
  }

  lemma ClearKeepsSound(db: Db, i: nat, snapshot: string)
    requires Sound(db) && i < |db.outbox|
    ensures Sound(Cleared(db, i, snapshot))
  {
    var after := Cleared(db, i, snapshot);
    forall j | 0 <= j < |after.outbox| ensures RowSound(after, after.outbox[j]) {
      assert RowSound(db, db.outbox[j]);
    }
  }

  /** A row of the outbox without the owners' rows is one of the outbox. */
  lemma RowsWithoutAt(outbox: seq<OutboxRow>, owners: set<User>, i: nat) returns (j: nat)
    requires i < |RowsWithout(outbox, owners)|
    ensures j < |outbox| && outbox[j] == RowsWithout(outbox, owners)[i] && outbox[j].owner !in owners
  {
    assert RowsWithout(outbox, owners)[i] in outbox;
    j :| 0 <= j < |outbox| && outbox[j] == RowsWithout(outbox, owners)[i];
  }

  lemma {:induction false} RowsWithoutOneEach(outbox: seq<OutboxRow>, owners: set<User>)
    requires OneRowEach(outbox)
    ensures OneRowEach(RowsWithout(outbox, owners))
  {
    if outbox != [] {
      var last := |outbox| - 1;
      RowsWithoutOneEach(outbox[..last], owners);
      forall row | row in RowsWithout(outbox[..last], owners) ensures row.taskId != outbox[last].taskId {
        assert row in outbox[..last];
      }
    }
  }

  lemma DeletionKeepsSound(db: Db, owners: set<User>, taskId: string)
    requires Sound(db)
    ensures Sound(Deleted(db, owners, taskId))
  {
    var after := Deleted(db, owners, taskId);
    RowsWithoutOneEach(db.outbox, owners);
    forall i | 0 <= i < |after.outbox| ensures RowSound(after, after.outbox[i]) {
      var j := RowsWithoutAt(db.outbox, owners, i);
      assert RowSound(db, db.outbox[j]);
    }
  }

  lemma StepKeepsSound(db: Db, step: Step, base: nat)
    requires Sound(db)
    ensures Sound(After(db, step, base))
  {
    var after := After(db, step, base);
    match step
    case Look(i, m) =>
      if i < |db.outbox| {
        LookKeepsSound(db, i, m, base);
      }
    case Enqueue(row, task) =>
      if after != db {
        EnqueueKeepsSound(db, row, task);
      }
    case MoveTask(id, target) =>
      forall i | 0 <= i < |after.outbox| ensures RowSound(after, after.outbox[i]) {
        assert RowSound(db, db.outbox[i]);
      }
    case ClearPayload(i, snapshot) =>
      if i < |db.outbox| {
        ClearKeepsSound(db, i, snapshot);
      }
    case AppendEvent(_, _, _, _) =>
      forall i | 0 <= i < |after.outbox| ensures RowSound(after, after.outbox[i]) {
        assert RowSound(db, db.outbox[i]);
      }
    case DeleteAccount(owners, taskId) =>
      DeletionKeepsSound(db, owners, taskId);
  }

  /** Over every run: at most three attempts, as many as publish calls; never both dispatched and exhausted. */
  lemma {:induction false} RunKeepsSound(db: Db, steps: seq<Step>, base: nat)
    requires Sound(db)
    ensures Sound(Run(db, steps, base))
  {
    if steps != [] {
      var before := steps[..|steps| - 1];
      RunKeepsSound(db, before, base);
      StepKeepsSound(Run(db, before, base), steps[|steps| - 1], base);
    }
  }

  // ----- the calls run out -----

  function AttemptsLeft(): OutboxRow -> int {
    (row: OutboxRow) => if Settled(row) then 0 else MAX_DISPATCH_ATTEMPTS - row.attempts
  }

  function Left(outbox: seq<OutboxRow>): int {
    RowSum(outbox, AttemptsLeft())
  }

  function NewRows(steps: seq<Step>): nat {
    if steps == [] then 0 else NewRows(steps[..|steps| - 1]) + if steps[|steps| - 1].Enqueue? then 1 else 0
  }

  lemma LookSpends(db: Db, i: nat, m: Meeting, base: nat)
    requires i < |db.outbox| && RowSound(db, db.outbox[i])
    ensures var after := AfterLook(db, i, m, base);
            && |after.calls| - |db.calls| <= Left(db.outbox) - Left(after.outbox)
            && (|after.calls| > |db.calls| ==> Left(after.outbox) < Left(db.outbox))
  {
    hide AfterLook, CallsOf, TaskIsOver;
    LookAtRow(db, i, m, base);
    RowSumUpdate(db.outbox, i, AfterLook(db, i, m, base).outbox[i], AttemptsLeft());
  }

  lemma {:induction false} RowsWithoutSum(outbox: seq<OutboxRow>, owners: set<User>, share: OutboxRow -> int)
    requires forall row :: row in outbox ==> 0 <= share(row)
    ensures RowSum(RowsWithout(outbox, owners), share) <= RowSum(outbox, share)
  {
    if outbox != [] {
      var last := |outbox| - 1;
      RowsWithoutSum(outbox[..last], owners, share);
      var kept := RowsWithout(outbox[..last], owners);
      assert (kept + [outbox[last]])[..|kept|] == kept;
      assert RowsWithout(outbox, owners) == if outbox[last].owner in owners then kept else kept + [outbox[last]];
    }
  }

  lemma RowHasLeft(db: Db, row: OutboxRow)
    requires RowSound(db, row)
    ensures 0 <= AttemptsLeft()(row)
  {
  }

  /** Each publish call spends at least one of the attempts left; a new row brings three. */
  lemma StepSpends(db: Db, step: Step, base: nat)
    requires Sound(db)
    ensures var after := After(db, step, base);
            |after.calls| - |db.calls| <= Left(db.outbox) - Left(after.outbox) + if step.Enqueue? then 3 else 0
    ensures |After(db, step, base).calls| > |db.calls| ==> Left(After(db, step, base).outbox) < Left(db.outbox)
  {
    hide AfterLook, RowSound;
    match step
    case Look(i, m) =>
      if i < |db.outbox| {
        LookSpends(db, i, m, base);
      }
    case Enqueue(row, task) =>
      assert (db.outbox + [row])[..|db.outbox|] == db.outbox;
    case ClearPayload(i, snapshot) =>
      if i < |db.outbox| {
        RowSumUpdate(db.outbox, i, Cleared(db, i, snapshot).outbox[i], AttemptsLeft());
      }
    case DeleteAccount(owners, _) =>
      forall row | row in db.outbox ensures 0 <= AttemptsLeft()(row) {
        var j :| 0 <= j < |db.outbox| && db.outbox[j] == row;
        RowHasLeft(db, db.outbox[j]);
      }
      RowsWithoutSum(db.outbox, owners, AttemptsLeft());
    case _ =>
  }

  lemma {:induction false} LeftIsNatural(db: Db, n: nat)
    requires n <= |db.outbox| && forall i :: 0 <= i < |db.outbox| ==> RowSound(db, db.outbox[i])
    ensures 0 <= Left(db.outbox[..n]) <= 3 * n
    decreases n
  {
    if n != 0 {
      assert RowSound(db, db.outbox[n - 1]);
      assert db.outbox[..n][..n - 1] == db.outbox[..n - 1];
      LeftIsNatural(db, n - 1);
    }
  }

  /**
   * In a whole run the publisher is called at most as often as attempts were left, and three times for every new row.
   */
  lemma {:induction false} CallsAreBounded(db: Db, steps: seq<Step>, base: nat)
    requires Sound(db)
    ensures |Run(db, steps, base).calls| + Left(Run(db, steps, base).outbox)
            <= |db.calls| + Left(db.outbox) + 3 * NewRows(steps)
    ensures |Run(db, steps, base).calls| <= |db.calls| + 3 * (|db.outbox| + NewRows(steps))
  {
    if steps != [] {
      var before := steps[..|steps| - 1];
      CallsAreBounded(db, before, base);
      RunKeepsSound(db, before, base);
      StepSpends(Run(db, before, base), steps[|steps| - 1], base);
    }
    var last := Run(db, steps, base);
    RunKeepsSound(db, steps, base);
    LeftIsNatural(db, |db.outbox|);
    LeftIsNatural(last, |last.outbox|);
    assert db.outbox[..|db.outbox|] == db.outbox && last.outbox[..|last.outbox|] == last.outbox;
  }

  // ----- settled rows -----

  /** A row as it was, but for snapshots that were dropped from its payload. */
  predicate SameButCleared(before: OutboxRow, after: OutboxRow) {
    && after == before.(payload := after.payload)
    && forall k :: k in after.payload ==> k in before.payload && after.payload[k] == before.payload[k]
  }

  /** The row is still there, but for its payload. */
  ghost predicate Survives(outbox: seq<OutboxRow>, row: OutboxRow) {
    exists j :: 0 <= j < |outbox| && SameButCleared(row, outbox[j])
  }

  /** Whatever row has the task of the row is that row, but for its payload. */
  predicate NoOther(outbox: seq<OutboxRow>, row: OutboxRow) {
    forall j :: 0 <= j < |outbox| && outbox[j].taskId == row.taskId ==> SameButCleared(row, outbox[j])
  }

  /** No other row ever has the task of the row, and no call is made for it. */
  predicate Over(db: Db, row: OutboxRow, calls: nat) {
    Settled(row) && CallsOf(db.calls, row.taskId) == calls > 0 && NoOther(db.outbox, row)
  }

  /** The step deletes the account of the row's owner. */
  predicate DeletesOwner(db: Db, step: Step, owner: User) {
    step.DeleteAccount? && owner in step.owners && CanDelete(db, step.owners)
  }

  lemma {:induction false} HasCall(calls: seq<Call>, taskId: string)
    requires CallsOf(calls, taskId) > 0
    ensures exists k :: 0 <= k < |calls| && calls[k].taskId == taskId
  {
    if calls[|calls| - 1].taskId != taskId {
      HasCall(calls[..|calls| - 1], taskId);
      var k :| 0 <= k < |calls| - 1 && calls[k].taskId == taskId;
    }
  }

  lemma LookKeepsOver(db: Db, i: nat, m: Meeting, base: nat, row: OutboxRow, calls: nat)
    requires i < |db.outbox| && Over(db, row, calls)
    ensures Over(AfterLook(db, i, m, base), row, calls)
    ensures Survives(AfterLook(db, i, m, base).outbox, row) <==> Survives(db.outbox, row)
  {
    hide AfterLook, Tried, CallsOf;
    var after := AfterLook(db, i, m, base);
    LookAtRow(db, i, m, base);
    if Due(db.outbox[i], m.now) {
      CallsOfAppend(db.calls, Call(db.outbox[i].taskId, m.now), row.taskId);
      assert db.outbox[i].taskId != row.taskId;
      TriedKeepsTask(db.outbox[i], m, base);
      assert after.outbox[i].taskId == db.outbox[i].taskId;
      forall j | 0 <= j < |db.outbox|
        ensures SameButCleared(row, after.outbox[j]) <==> SameButCleared(row, db.outbox[j])
      {
      }
    }
  }

  lemma TriedKeepsTask(row: OutboxRow, m: Meeting, base: nat)
    ensures Tried(row, m, base).taskId == row.taskId
  {
  }

  lemma EnqueueKeepsOver(db: Db, added: OutboxRow, task: Task, row: OutboxRow, calls: nat)
    requires Over(db, row, calls) && CanEnqueue(db, added, task)
    ensures Over(Enqueued(db, added, task), row, calls)
    ensures Survives(Enqueued(db, added, task).outbox, row) <==> Survives(db.outbox, row)
  {
    hide CallsOf;
    HasCall(db.calls, row.taskId);
    var after := Enqueued(db, added, task);
    assert forall j :: 0 <= j < |db.outbox| ==> after.outbox[j] == db.outbox[j];
  }

  /** Clearing a payload leaves each row what it was, a version of the settled one or not. */
  lemma ClearKeepsOver(db: Db, i: nat, snapshot: string, row: OutboxRow, calls: nat)
    requires Over(db, row, calls) && i < |db.outbox|
    ensures Over(Cleared(db, i, snapshot), row, calls)
    ensures Survives(Cleared(db, i, snapshot).outbox, row) <==> Survives(db.outbox, row)
  {
    hide CallsOf;
    var after := Cleared(db, i, snapshot);
    forall j | 0 <= j < |db.outbox|
      ensures SameButCleared(row, db.outbox[j]) <==> SameButCleared(row, after.outbox[j])
    {
      assert after.outbox[j].taskId == db.outbox[j].taskId;
    }
  }

  lemma StepKeepsOver(db: Db, step: Step, base: nat, row: OutboxRow, calls: nat)
    requires Over(db, row, calls)
    ensures Over(After(db, step, base), row, calls)
    ensures Survives(After(db, step, base).outbox, row)
       <==> Survives(db.outbox, row) && !DeletesOwner(db, step, row.owner)
  {
    hide AfterLook, CallsOf, SameButCleared, Enqueued, Cleared;
    match step
    case Look(i, m) =>
      if i < |db.outbox| {
        LookKeepsOver(db, i, m, base, row, calls);
      }
    case Enqueue(added, task) =>
      if CanEnqueue(db, added, task) {
        EnqueueKeepsOver(db, added, task, row, calls);
      }
    case ClearPayload(i, snapshot) =>
      if i < |db.outbox| {
        ClearKeepsOver(db, i, snapshot, row, calls);
      }
    case DeleteAccount(owners, _) =>
      if CanDelete(db, owners) {
        DeletionKeepsOver(db, owners, row);
      }
    case _ =>
  }

  lemma DeletionKeepsOver(db: Db, owners: set<User>, row: OutboxRow)
    ensures Survives(RowsWithout(db.outbox, owners), row) <==> Survives(db.outbox, row) && row.owner !in owners
    ensures NoOther(db.outbox, row) ==> NoOther(RowsWithout(db.outbox, owners), row)
  {
    var kept := RowsWithout(db.outbox, owners);
    forall j | 0 <= j < |kept| ensures kept[j] in db.outbox && kept[j].owner !in owners {
      var _ := RowsWithoutAt(db.outbox, owners, j);
    }
    if Survives(db.outbox, row) && row.owner !in owners {
      var j :| 0 <= j < |db.outbox| && SameButCleared(row, db.outbox[j]);
      assert db.outbox[j] in kept;
    }
  }

  /** Step `k` deletes the account of the row's owner. */
  ghost predicate DeletesOwnerAt(db: Db, steps: seq<Step>, base: nat, k: nat, owner: User) {
    k < |steps| && DeletesOwner(Run(db, steps[..k], base), steps[k], owner)
  }

  /**
   * A settled row stays as it is, but for its payload, exactly until its owner's account is deleted; its task never
   * gets another row and is never published again.
   */
  lemma {:induction false} SettledForEver(db: Db, steps: seq<Step>, base: nat, i: nat)
    requires Sound(db) && i < |db.outbox| && Settled(db.outbox[i])
    ensures var after, row := Run(db, steps, base), db.outbox[i];
            && Over(after, row, CallsOf(db.calls, row.taskId))
            && (Survives(after.outbox, row)
                <==> forall k: nat :: k < |steps| ==> !DeletesOwnerAt(db, steps, base, k, row.owner))
  {
    hide After, CallsOf, Survives, DeletesOwner;
    var row := db.outbox[i];
    if steps == [] {
      assert RowSound(db, row);
      RowSurvives(db.outbox, i);
    } else {
      var last := |steps| - 1;
      SettledForEver(db, steps[..last], base, i);
      StepKeepsOver(Run(db, steps[..last], base), steps[last], base, row, CallsOf(db.calls, row.taskId));
      forall k: nat | k < last
        ensures DeletesOwnerAt(db, steps, base, k, row.owner) <==> DeletesOwnerAt(db, steps[..last], base, k, row.owner)
      {
        assert steps[..last][..k] == steps[..k] && steps[..last][k] == steps[k];
      }
      assert DeletesOwnerAt(db, steps, base, last, row.owner)
        <==> DeletesOwner(Run(db, steps[..last], base), steps[last], row.owner);
    }
  }

  lemma RowSurvives(outbox: seq<OutboxRow>, i: nat)
    requires i < |outbox|
    ensures Survives(outbox, outbox[i])
  {
    assert SameButCleared(outbox[i], outbox[i]);
  }

  // ----- the delays -----

  /** The wait after the call at `k`: the base, doubled for every earlier call of the task. */
  function WaitAfter(calls: seq<Call>, k: nat, base: nat): nat
    requires k < |calls|
  {
    base * Pow2(CallsOf(calls[..k], calls[k].taskId))
  }

  /** No task is published again before the wait after each of its calls is over. */
  ghost predicate WellSpaced(calls: seq<Call>, base: nat) {
    forall k, l :: 0 <= k < l < |calls| && calls[k].taskId == calls[l].taskId ==>
                     calls[k].at + WaitAfter(calls, k, base) <= calls[l].at
  }

  ghost predicate Waits(db: Db, base: nat) {
    forall i, k :: 0 <= i < |db.outbox| && 0 <= k < |db.calls| && !Settled(db.outbox[i])
                   && db.calls[k].taskId == db.outbox[i].taskId ==>
                     db.calls[k].at + WaitAfter(db.calls, k, base) <= db.outbox[i].availableAt
  }

  lemma WaitAfterKept(calls: seq<Call>, c: Call, k: nat, base: nat)
    requires k < |calls|
    ensures WaitAfter(calls + [c], k, base) == WaitAfter(calls, k, base)
  {
    assert (calls + [c])[..k] == calls[..k];
  }

  lemma LookWaits(db: Db, i: nat, m: Meeting, base: nat)
    requires Sound(db) && i < |db.outbox| && Due(db.outbox[i], m.now)
    requires Waits(db, base) && WellSpaced(db.calls, base)
    ensures Waits(AfterLook(db, i, m, base), base)
    ensures WellSpaced(AfterLook(db, i, m, base).calls, base)
  {
    hide AfterLook, WaitAfter, RowSound;
    var after := AfterLook(db, i, m, base);
    var n := |db.calls|;
    var row := db.outbox[i];
    LookAtRow(db, i, m, base);
    forall k | 0 <= k < n ensures WaitAfter(after.calls, k, base) == WaitAfter(db.calls, k, base) {
      WaitAfterKept(db.calls, after.calls[n], k, base);
    }
    forall j, k | 0 <= j < |after.outbox| && 0 <= k <= n && !Settled(after.outbox[j])
                  && after.calls[k].taskId == after.outbox[j].taskId
      ensures after.calls[k].at + WaitAfter(after.calls, k, base) <= after.outbox[j].availableAt
    {
      if k == n {
        assert j == i;
        NewWait(db, i, m, base);
      } else {
        assert after.calls[k].at + WaitAfter(after.calls, k, base) <= db.outbox[j].availableAt;
      }
    }
  }

  /** A row that was tried in vain is available again when its own wait is over. */
  lemma NewWait(db: Db, i: nat, m: Meeting, base: nat)
    requires Sound(db) && i < |db.outbox| && Due(db.outbox[i], m.now)
    requires !Settled(Tried(db.outbox[i], m, base))
    ensures m.now + WaitAfter(db.calls + [Call(db.outbox[i].taskId, m.now)], |db.calls|, base)
            <= Tried(db.outbox[i], m, base).availableAt
  {
    assert RowSound(db, db.outbox[i]);
    assert (db.calls + [Call(db.outbox[i].taskId, m.now)])[..|db.calls|] == db.calls;
  }

  lemma EnqueueWaits(db: Db, row: OutboxRow, task: Task, base: nat)
    requires Sound(db) && Waits(db, base) && CanEnqueue(db, row, task)
    ensures Waits(Enqueued(db, row, task), base)
  {
    hide WaitAfter, RowSound;
    assert forall k :: 0 <= k < |db.calls| ==> db.calls[k].taskId != row.taskId;
  }

  lemma DeletionWaits(db: Db, owners: set<User>, taskId: string, base: nat)
    requires Waits(db, base)
    ensures Waits(Deleted(db, owners, taskId), base)
  {
    hide WaitAfter;
    var after := Deleted(db, owners, taskId);
    forall i, k | 0 <= i < |after.outbox| && 0 <= k < |after.calls| && !Settled(after.outbox[i])
                  && after.calls[k].taskId == after.outbox[i].taskId
      ensures after.calls[k].at + WaitAfter(after.calls, k, base) <= after.outbox[i].availableAt
    {
      var j := RowsWithoutAt(db.outbox, owners, i);
      assert db.calls[k].at + WaitAfter(db.calls, k, base) <= db.outbox[j].availableAt;
    }
  }

  /** Over every run the calls of a task are spaced by delays that double. */
  lemma {:induction false} RunIsWellSpaced(db: Db, steps: seq<Step>, base: nat)
    requires Sound(db) && Waits(db, base) && WellSpaced(db.calls, base)
    ensures Waits(Run(db, steps, base), base) && WellSpaced(Run(db, steps, base).calls, base)
  {
    hide AfterLook, Sound, WellSpaced, WaitAfter;
    if steps != [] {
      var earlier := steps[..|steps| - 1];
      var before := Run(db, earlier, base);
      RunIsWellSpaced(db, earlier, base);
      RunKeepsSound(db, earlier, base);
      match steps[|steps| - 1]
      case Look(i, m) =>
        if i < |before.outbox| {
          if Due(before.outbox[i], m.now) {
            LookWaits(before, i, m, base);
          } else {
            LookAtRow(before, i, m, base);
          }
        }
      case Enqueue(row, task) =>
        if CanEnqueue(before, row, task) {
          EnqueueWaits(before, row, task, base);
        }
      case ClearPayload(i, snapshot) =>
        if i < |before.outbox| {
          assert Waits(Cleared(before, i, snapshot), base);
        }
      case DeleteAccount(owners, taskId) =>
        DeletionWaits(before, owners, taskId, base);
      case _ =>
    }
  }

  // ----- the reservation of an exhausted task -----

  /**
   * When the last attempt of a row fails on an AI task that never started a run, its reservation is released,
   * under the ledger's guard, and what is held against the day's limit falls by exactly its cost.
   */
  lemma ExhaustionFreesReservation(db: Db, i: nat, m: Meeting, base: nat, since: int)
    requires i < |db.outbox| && Due(db.outbox[i], m.now) && Tried(db.outbox[i], m, base).exhaustedAt.Some?
    requires HasTask(db, db.outbox[i])
    requires var task := db.tasks[db.outbox[i].taskId];
             !Terminal(task.status) && task.usageType == AI_TASK && task.activeAiRunId.None?
    ensures var row := db.outbox[i];
            var r := FindReservation(db.ledger, row.taskId, row.owner);
            var after := AfterLook(db, i, m, base).ledger;
            if r == |db.ledger| then after == db.ledger
            else
              && |after| == |db.ledger| && GuardAllows(db.ledger[r], after[r]) && after == db.ledger[r := after[r]]
              && after[r].state == Released
              && AdmissionCost(after, since)
                 == AdmissionCost(db.ledger, since) - CostIn({Reserved}, since)(db.ledger[r])
              && DailyCost(after, since) == DailyCost(db.ledger, since)
  {
    var r := FindReservation(db.ledger, db.outbox[i].taskId, db.outbox[i].owner);
    if r < |db.ledger| {
      GuardConserves(db.ledger, r, db.ledger[r].(state := Released, updatedAt := m.now), since);
    }
  }

  /** Any other look leaves the ledger alone. */
  lemma OtherwiseLedgerIsKept(db: Db, i: nat, m: Meeting, base: nat)
    requires i < |db.outbox|
    requires !(Due(db.outbox[i], m.now) && Tried(db.outbox[i], m, base).exhaustedAt.Some?)
             || TaskIsOver(db, db.outbox[i])
    ensures AfterLook(db, i, m, base).ledger == db.ledger
  {
  }

  // ----- task events -----

  predicate OfTask(e: TaskEvent, taskId: string, owner: User) {
    e.taskId == taskId && e.owner == owner
  }

  function EventsOf(events: seq<TaskEvent>, taskId: string, owner: User): nat {
    if events == [] then 0
    else EventsOf(events[..|events| - 1], taskId, owner) + if OfTask(events[|events| - 1], taskId, owner) then 1 else 0
  }

  /** The events of every task are numbered 1, 2, 3, ... without a gap, and belong to a task that exists. */
  ghost predicate Numbered(db: Db) {
    && (forall i :: 0 <= i < |db.events| ==>
                      db.events[i].taskId in db.tasks && db.tasks[db.events[i].taskId].owner == db.events[i].owner)
    && GapFree(db.events)
  }

  predicate GapFree(events: seq<TaskEvent>) {
    forall i :: 0 <= i < |events| ==>
                  events[i].number == EventsOf(events[..i], events[i].taskId, events[i].owner) + 1
  }

  /** The number that a writer finds as the last is the count of the events so far. */
  lemma {:induction false} LastIsCount(events: seq<TaskEvent>, taskId: string, owner: User)
    requires GapFree(events)
    ensures LastNumber(events, taskId, owner) == EventsOf(events, taskId, owner)
  {
    if events != [] {
      var last := |events| - 1;
      assert forall i :: 0 <= i < last ==> events[..last][..i] == events[..i];
      LastIsCount(events[..last], taskId, owner);
    }
  }

  lemma {:induction false} NoEvents(events: seq<TaskEvent>, taskId: string, owner: User)
    requires forall i :: 0 <= i < |events| ==> events[i].taskId != taskId
    ensures EventsOf(events, taskId, owner) == 0
  {
    if events != [] {
      NoEvents(events[..|events| - 1], taskId, owner);
    }
  }

  lemma EventAppended(events: seq<TaskEvent>, e: TaskEvent)
    requires GapFree(events) && e.number == EventsOf(events, e.taskId, e.owner) + 1
    ensures GapFree(events + [e])
  {
    var after := events + [e];
    forall i | 0 <= i < |after|
      ensures after[i].number == EventsOf(after[..i], after[i].taskId, after[i].owner) + 1
    {
      assert after[..i] == events[..i];
      assert events[..|events|] == events;
    }
  }

  /** One more event, of a task that exists, with the number that its writer found free. */
  predicate Adds(db: Db, after: seq<TaskEvent>, e: TaskEvent) {
    && e.taskId in db.tasks && db.tasks[e.taskId].owner == e.owner
    && e.number == LastNumber(db.events, e.taskId, e.owner) + 1 && after == db.events + [e]
  }

  /** What a look does to the events: nothing, or one more for a task that exists. */
  lemma LookAtEvents(db: Db, i: nat, m: Meeting, base: nat)
    requires i < |db.outbox|
    ensures var after := AfterLook(db, i, m, base);
            after.events == db.events || exists e :: Adds(db, after.events, e)
  {
    var row := db.outbox[i];
    if row.taskId in db.tasks {
      var owner := db.tasks[row.taskId].owner;
      var number := LastNumber(db.events, row.taskId, owner) + 1;
      var e := TaskEvent(row.taskId, owner, number, "failed", db.tasks[row.taskId].progress, m.now);
      assert AfterLook(db, i, m, base).events == db.events || Adds(db, AfterLook(db, i, m, base).events, e);
    }
  }

  lemma EventsWithoutLast(events: seq<TaskEvent>, owners: set<User>, deletion: string)
    requires events != []
    ensures var last := events[|events| - 1];
            var kept := EventsWithout(events[..|events| - 1], owners, deletion);
            EventsWithout(events, owners, deletion)
            == if last.owner in owners && last.taskId != deletion then kept else kept + [last]
  {
  }

  lemma GapFreePrefix(events: seq<TaskEvent>)
    requires GapFree(events) && events != []
    ensures GapFree(events[..|events| - 1])
    ensures var last := |events| - 1;
            events[last].number == EventsOf(events[..last], events[last].taskId, events[last].owner) + 1
  {
    hide EventsOf;
    var last := |events| - 1;
    assert forall i :: 0 <= i < last ==> events[..last][..i] == events[..i];
  }

  /** The events that are kept are counted as before. */
  lemma {:induction false} EventsOfKept(events: seq<TaskEvent>, owners: set<User>, deletion: string, taskId: string,
                                        owner: User)
    requires owner !in owners || taskId == deletion
    ensures EventsOf(EventsWithout(events, owners, deletion), taskId, owner) == EventsOf(events, taskId, owner)
  {
    if events != [] {
      var last := |events| - 1;
      EventsOfKept(events[..last], owners, deletion, taskId, owner);
      var kept := EventsWithout(events[..last], owners, deletion);
      EventsWithoutLast(events, owners, deletion);
      hide EventsWithout;
      EventsOfAppend(kept, events[last], taskId, owner);
    }
  }

  lemma EventsOfAppend(events: seq<TaskEvent>, e: TaskEvent, taskId: string, owner: User)
    ensures EventsOf(events + [e], taskId, owner)
         == EventsOf(events, taskId, owner) + if OfTask(e, taskId, owner) then 1 else 0
  {
    assert (events + [e])[..|events|] == events;
  }

  lemma {:induction false} GapFreeKept(events: seq<TaskEvent>, owners: set<User>, deletion: string)
    requires GapFree(events)
    ensures GapFree(EventsWithout(events, owners, deletion))
  {
    if events != [] {
      var last := |events| - 1;
      var e := events[last];
      GapFreePrefix(events);
      hide EventsOf, GapFree, EventsWithout;
      EventsWithoutLast(events, owners, deletion);
      GapFreeKept(events[..last], owners, deletion);
      if e.owner !in owners || e.taskId == deletion {
        EventsOfKept(events[..last], owners, deletion, e.taskId, e.owner);
        EventAppended(EventsWithout(events[..last], owners, deletion), e);
      }
    }
  }

  lemma DeletionKeepsNumbers(db: Db, owners: set<User>, taskId: string)
    requires Numbered(db)
    ensures Numbered(Deleted(db, owners, taskId))
  {
    var after := Deleted(db, owners, taskId);
    GapFreeKept(db.events, owners, taskId);
    forall i | 0 <= i < |after.events|
      ensures after.events[i].taskId in after.tasks
      ensures after.tasks[after.events[i].taskId].owner == after.events[i].owner
    {
      assert after.events[i] in after.events;
      var j :| 0 <= j < |db.events| && db.events[j] == after.events[i];
    }
  }

  lemma StepKeepsNumbers(db: Db, step: Step, base: nat)
    requires Numbered(db)
    ensures Numbered(After(db, step, base))
  {
    hide AfterLook, EventsOf, LastNumber;
    match step
    case Look(i, m) =>
      if i < |db.outbox| {
        LookAtTasks(db, i, m, base);
        LookAtEvents(db, i, m, base);
        var after := AfterLook(db, i, m, base);
        if after.events != db.events {
          var e :| Adds(db, after.events, e);
          LastIsCount(db.events, e.taskId, e.owner);
          EventAppended(db.events, e);
        }
      }
    case Enqueue(row, task) =>
      if CanEnqueue(db, row, task) {
        NoEvents(db.events, row.taskId, task.owner);
        EventAppended(db.events, TaskEvent(row.taskId, task.owner, 1, "queued", 0, row.availableAt));
      }
    case AppendEvent(id, stage, progress, now) =>
      if id in db.tasks {
        var owner := db.tasks[id].owner;
        LastIsCount(db.events, id, owner);
        EventAppended(db.events, TaskEvent(id, owner, LastNumber(db.events, id, owner) + 1, stage, progress, now));
      }
    case DeleteAccount(owners, taskId) =>
      if CanDelete(db, owners) {
        DeletionKeepsNumbers(db, owners, taskId);
      }
    case _ =>
  }

  /** Over every run, whoever records events, those of each task are numbered from 1 without a gap. */
  lemma {:induction false} RunKeepsNumbers(db: Db, steps: seq<Step>, base: nat)
    requires Numbered(db)
    ensures Numbered(Run(db, steps, base))
  {
    hide After, Numbered;
    if steps != [] {
      RunKeepsNumbers(db, steps[..|steps| - 1], base);
      StepKeepsNumbers(Run(db, steps[..|steps| - 1], base), steps[|steps| - 1], base);
    }
  }
}

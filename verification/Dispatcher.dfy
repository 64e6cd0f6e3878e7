/**
 * The dispatcher of the transactional outbox: it publishes the task of each outbox row, at most three times
 * with a growing delay, and fails the task of a row whose attempts are used up.
 */
module Dispatcher {
  import opened Wrappers
  import opened Aliases
  import opened UsageLedger

  const MAX_DISPATCH_ATTEMPTS: nat := 3

  /** Times are microseconds. */
  datatype OutboxRow = OutboxRow(
    taskId: string, owner: User, payload: map<string, string>, attempts: nat, availableAt: int,
    dispatchedAt: Option<int>, exhaustedAt: Option<int>, lastError: Option<string>)

  datatype TaskStatus = Queued | Running | WaitingForUser | Succeeded | Failed | Cancelled

  datatype Resource = NoResource | Resource(kind: string, id: string)

  datatype Task = Task(
    owner: User, kind: string, status: TaskStatus, stage: string, errorCode: Option<string>, progress: int,
    resource: Resource, usageType: string, activeAiRunId: Option<string>, claimToken: Option<string>,
    claimLeaseExpiresAt: Option<int>, finishedAt: Option<int>)

  datatype TaskEvent = TaskEvent(taskId: string, owner: User, number: nat, stage: string, progress: int, createdAt: int)

  /** An intake answer, an intake session or a job description: what a failed task gives back. */
  datatype IntakeAnswer = IntakeAnswer(owner: User, taskId: Option<string>, analysisStatus: string)

  datatype IntakeSession = IntakeSession(
    owner: User, taskId: Option<string>, status: string, resumeId: Option<string>, version: int, updatedAt: int)

  datatype JobDescription = JobDescription(owner: User, taskId: Option<string>, status: string)

  /** One call of the publisher. */
  datatype Call = Call(taskId: string, at: int)

  datatype Db = Db(
    outbox: seq<OutboxRow>, tasks: map<string, Task>, ledger: seq<Entry>, answers: map<string, IntakeAnswer>,
    intakes: map<string, IntakeSession>, jobs: map<string, JobDescription>, events: seq<TaskEvent>, calls: seq<Call>)

  /** What one look at a row meets: the clock, the error the publisher raises if any, and the jitter. */
  datatype Meeting = Meeting(now: int, failure: Option<string>, jitter: int)

  predicate Terminal(s: TaskStatus) {
    s in {Succeeded, Failed, Cancelled}
  }

  predicate Settled(row: OutboxRow) {
    row.dispatchedAt.Some? || row.exhaustedAt.Some?
  }

  function Pow2(n: nat): nat
    ensures Pow2(n) >= 1
  {
    if n == 0 then 1 else 2 * Pow2(n - 1)
  }

  /** The wait after a failed attempt. */
  function Delay(base: nat, attempts: nat, jitter: int): int
    requires attempts > 0
  {
    base * Pow2(attempts - 1) + if jitter > 0 then jitter else 0
  }

  // ----- failing the task of an exhausted row -----

  predicate HasTask(db: Db, row: OutboxRow) {
    row.taskId in db.tasks && db.tasks[row.taskId].owner == row.owner
  }

  predicate IsUnusedReservation(e: Entry, taskId: string, owner: User) {
    e.taskId == Some(taskId) && e.owner == owner && e.usageType == AI_TASK && e.state == Reserved && e.aiRunId.None?
  }

  /** The task's unused reservation; the table has at most one by its unique constraint. */
  function FindReservation(ledger: seq<Entry>, taskId: string, owner: User): (i: nat)
    ensures i <= |ledger|
    ensures i < |ledger| ==> IsUnusedReservation(ledger[i], taskId, owner)
    ensures forall j :: 0 <= j < i ==> !IsUnusedReservation(ledger[j], taskId, owner)
  {
    if ledger == [] then 0
    else if IsUnusedReservation(ledger[0], taskId, owner) then 0
    else 1 + FindReservation(ledger[1..], taskId, owner)
  }

  function Freed(ledger: seq<Entry>, taskId: string, task: Task, now: int): seq<Entry> {
    var i := FindReservation(ledger, taskId, task.owner);
    if task.usageType == AI_TASK && task.activeAiRunId.None? && i < |ledger|
    then ledger[i := ledger[i].(state := Released, updatedAt := now)]
    else ledger
  }

  function FailedTask(task: Task, now: int): Task {
    task.(status := Failed, stage := "failed", errorCode := Some("TASK_QUEUE_UNAVAILABLE"), finishedAt := Some(now),
          claimToken := None, claimLeaseExpiresAt := None)
  }

  predicate Works(task: Task, kind: string, resourceKind: string) {
    task.kind == kind && task.resource.Resource? && task.resource.kind == resourceKind
  }

  function FailedAnswers(answers: map<string, IntakeAnswer>, taskId: string, task: Task): map<string, IntakeAnswer> {
    if && Works(task, "analyze_intake_answer", "intake_answer") && task.resource.id in answers
       && answers[task.resource.id].owner == task.owner && answers[task.resource.id].taskId == Some(taskId)
       && answers[task.resource.id].analysisStatus in {"queued", "running"}
    then answers[task.resource.id := answers[task.resource.id].(analysisStatus := "failed")]
    else answers
  }

  function ReopenedIntakes(intakes: map<string, IntakeSession>, taskId: string, task: Task, now: int)
    : map<string, IntakeSession>
  {
    if && Works(task, "generate_intake_draft", "intake_session") && task.resource.id in intakes
       && intakes[task.resource.id].owner == task.owner && intakes[task.resource.id].taskId == Some(taskId)
       && intakes[task.resource.id].status == "drafting" && intakes[task.resource.id].resumeId.None?
    then
      var intake := intakes[task.resource.id];
      intakes[task.resource.id := intake.(status := "active", version := intake.version + 1, updatedAt := now)]
    else intakes
  }

  function ReopenedJobs(jobs: map<string, JobDescription>, taskId: string, task: Task): map<string, JobDescription> {
    if && Works(task, "parse_job", "job_description") && task.resource.id in jobs
       && jobs[task.resource.id].owner == task.owner && jobs[task.resource.id].taskId == Some(taskId)
       && jobs[task.resource.id].status in {"queued", "processing", "failed"}
    then jobs[task.resource.id := jobs[task.resource.id].(status := "draft")]
    else jobs
  }

  function Stripped(payload: map<string, string>, task: Task): map<string, string> {
    var drafted := if Works(task, "generate_intake_draft", "intake_session") then payload - {"draft_snapshot"}
                   else payload;
    if Works(task, "parse_job", "job_description") then drafted - {"parse_snapshot"} else drafted
  }

  function LastNumber(events: seq<TaskEvent>, taskId: string, owner: User): (n: nat)
    ensures forall i :: 0 <= i < |events| && events[i].taskId == taskId && events[i].owner == owner ==>
              events[i].number <= n
  {
    if events == [] then 0
    else
      var last := events[|events| - 1];
      var before := LastNumber(events[..|events| - 1], taskId, owner);
      if last.taskId == taskId && last.owner == owner && last.number > before then last.number else before
  }

  function AfterFailing(db: Db, i: nat, now: int): Db
    requires i < |db.outbox|
  {
    var row := db.outbox[i];
    if !HasTask(db, row) || Terminal(db.tasks[row.taskId].status) then db
    else
      var task := db.tasks[row.taskId];
      db.(tasks := db.tasks[row.taskId := FailedTask(task, now)],
          ledger := Freed(db.ledger, row.taskId, task, now),
          answers := FailedAnswers(db.answers, row.taskId, task),
          intakes := ReopenedIntakes(db.intakes, row.taskId, task, now),
          jobs := ReopenedJobs(db.jobs, row.taskId, task),
          outbox := db.outbox[i := row.(payload := Stripped(row.payload, task))],
          events := db.events + [TaskEvent(row.taskId, task.owner, LastNumber(db.events, row.taskId, task.owner) + 1,
                                           "failed", task.progress, now)])
  }

  // ----- what a failed task gives back, row by row -----

  /** The task fails, and no other task changes. */
  predicate TaskFails(before: map<string, Task>, id: string, now: int, after: map<string, Task>)
    requires id in before
  {
    && after.Keys == before.Keys && (forall other :: other in before && other != id ==> after[other] == before[other])
    && after[id].status == Failed && after[id].stage == "failed" && after[id].finishedAt == Some(now)
    && after[id].errorCode == Some("TASK_QUEUE_UNAVAILABLE")
    && after[id].claimToken == None && after[id].claimLeaseExpiresAt == None
    && after[id].owner == before[id].owner && after[id].kind == before[id].kind
    && after[id].progress == before[id].progress && after[id].resource == before[id].resource
    && after[id].usageType == before[id].usageType && after[id].activeAiRunId == before[id].activeAiRunId
  }

  /** Of an AI task that never started a run the first unused reservation is released. */
  predicate ReservationFreed(before: seq<Entry>, id: string, task: Task, now: int, after: seq<Entry>) {
    && |after| == |before|
    && forall j :: 0 <= j < |before| ==>
                     after[j] == if && task.usageType == "ai_task" && task.activeAiRunId == None
                                    && IsUnusedReservation(before[j], id, task.owner)
                                    && (forall k :: 0 <= k < j ==> !IsUnusedReservation(before[k], id, task.owner))
                                 then before[j].(state := Released, updatedAt := now) else before[j]
  }

  /** The answer that the task was analysing failed with it. */
  predicate AnswerFails(before: map<string, IntakeAnswer>, id: string, task: Task, after: map<string, IntakeAnswer>) {
    && after.Keys == before.Keys
    && forall a :: a in before ==>
                     after[a] == if && task.kind == "analyze_intake_answer"
                                    && task.resource == Resource("intake_answer", a)
                                    && before[a].owner == task.owner && before[a].taskId == Some(id)
                                    && (before[a].analysisStatus == "queued" || before[a].analysisStatus == "running")
                                 then before[a].(analysisStatus := "failed") else before[a]
  }

  /** The session that the task was drafting for is active again, in a new version. */
  predicate SessionReopens(before: map<string, IntakeSession>, id: string, task: Task, now: int,
                           after: map<string, IntakeSession>)
  {
    && after.Keys == before.Keys
    && forall s :: s in before ==>
                     after[s] == if && task.kind == "generate_intake_draft"
                                    && task.resource == Resource("intake_session", s)
                                    && before[s].owner == task.owner && before[s].taskId == Some(id)
                                    && before[s].status == "drafting" && before[s].resumeId == None
                                 then before[s].(status := "active", version := before[s].version + 1, updatedAt := now)
                                 else before[s]
  }

  /** The job description that the task was parsing is a draft again. */
  predicate JobReopens(before: map<string, JobDescription>, id: string, task: Task,
                       after: map<string, JobDescription>)
  {
    && after.Keys == before.Keys
    && forall j :: j in before ==>
                     after[j] == if && task.kind == "parse_job" && task.resource == Resource("job_description", j)
                                    && before[j].owner == task.owner && before[j].taskId == Some(id)
                                    && before[j].status in {"queued", "processing", "failed"}
                                 then before[j].(status := "draft") else before[j]
  }

  /** The row loses the snapshot of the user's own words that the task was given, and nothing else. */
  predicate SnapshotDropped(before: OutboxRow, task: Task, after: OutboxRow) {
    && after == before.(payload := after.payload)
    && (forall key :: key in after.payload ==> key in before.payload && after.payload[key] == before.payload[key])
    && forall key :: key in before.payload ==> (key !in after.payload <==>
         && task.resource.Resource?
         && ((key == "draft_snapshot" && task.kind == "generate_intake_draft" && task.resource.kind == "intake_session")
             || (key == "parse_snapshot" && task.kind == "parse_job" && task.resource.kind == "job_description")))
  }

  /** One event says so, with the number after the task's last. */
  predicate FailureRecorded(before: seq<TaskEvent>, id: string, task: Task, now: int, after: seq<TaskEvent>) {
    && |after| == |before| + 1 && after[..|before|] == before
    && var e := after[|before|];
       && e == TaskEvent(id, task.owner, e.number, "failed", task.progress, now) && e.number > 0
       && (forall k :: 0 <= k < |before| && before[k].taskId == id && before[k].owner == task.owner ==>
                         before[k].number < e.number)
       && (e.number == 1 || exists k :: 0 <= k < |before| && before[k].taskId == id && before[k].owner == task.owner
                                        && before[k].number == e.number - 1)
  }

  /** All that a task gives back when its row is exhausted; a task that is gone or over is left alone. */
  ghost predicate GivesBack(db: Db, i: nat, now: int, after: Db) {
    && i < |db.outbox| && |after.outbox| == |db.outbox| && after.calls == db.calls
    && var row := db.outbox[i];
       if row.taskId in db.tasks && db.tasks[row.taskId].owner == row.owner
          && db.tasks[row.taskId].status !in {Succeeded, Failed, Cancelled}
       then
         var task := db.tasks[row.taskId];
         && TaskFails(db.tasks, row.taskId, now, after.tasks)
         && ReservationFreed(db.ledger, row.taskId, task, now, after.ledger)
         && AnswerFails(db.answers, row.taskId, task, after.answers)
         && SessionReopens(db.intakes, row.taskId, task, now, after.intakes)
         && JobReopens(db.jobs, row.taskId, task, after.jobs)
         && SnapshotDropped(row, task, after.outbox[i]) && after.outbox == db.outbox[i := after.outbox[i]]
         && FailureRecorded(db.events, row.taskId, task, now, after.events)
       else after == db
  }

  lemma {:induction false} LastNumberIsMax(events: seq<TaskEvent>, taskId: string, owner: User)
    ensures var n := LastNumber(events, taskId, owner);
            n == 0 || exists k :: 0 <= k < |events| && events[k].taskId == taskId && events[k].owner == owner
                                  && events[k].number == n
  {
    if events != [] {
      var last := |events| - 1;
      LastNumberIsMax(events[..last], taskId, owner);
      var before := LastNumber(events[..last], taskId, owner);
      if before != 0 && LastNumber(events, taskId, owner) == before {
        var k :| 0 <= k < last && events[..last][k].taskId == taskId && events[..last][k].owner == owner
                 && events[..last][k].number == before;
        assert events[k] == events[..last][k];
      }
    }
  }

  lemma FailureIsRecorded(events: seq<TaskEvent>, id: string, task: Task, now: int)
    ensures var e := TaskEvent(id, task.owner, LastNumber(events, id, task.owner) + 1, "failed", task.progress, now);
            FailureRecorded(events, id, task, now, events + [e])
  {
    hide LastNumber;
    LastNumberIsMax(events, id, task.owner);
  }

  lemma ReservationIsFreed(ledger: seq<Entry>, id: string, task: Task, now: int)
    ensures ReservationFreed(ledger, id, task, now, Freed(ledger, id, task, now))
  {
  }

  lemma SnapshotIsDropped(row: OutboxRow, task: Task)
    ensures SnapshotDropped(row, task, row.(payload := Stripped(row.payload, task)))
  {
  }

  lemma AnswerIsFailed(answers: map<string, IntakeAnswer>, id: string, task: Task)
    ensures AnswerFails(answers, id, task, FailedAnswers(answers, id, task))
  {
  }

  lemma SessionIsReopened(intakes: map<string, IntakeSession>, id: string, task: Task, now: int)
    ensures SessionReopens(intakes, id, task, now, ReopenedIntakes(intakes, id, task, now))
  {
  }

  lemma JobIsReopened(jobs: map<string, JobDescription>, id: string, task: Task)
    ensures JobReopens(jobs, id, task, ReopenedJobs(jobs, id, task))
  {
  }

  /** Failing the task of a row gives back all that. */
  lemma FailingGivesBack(db: Db, i: nat, now: int)
    requires i < |db.outbox|
    ensures GivesBack(db, i, now, AfterFailing(db, i, now))
  {
    hide Freed, ReservationFreed, FailureRecorded, LastNumber, Stripped, SnapshotDropped, AnswerFails, SessionReopens,
         JobReopens, FailedAnswers, ReopenedIntakes, ReopenedJobs;
    var row := db.outbox[i];
    if HasTask(db, row) && !Terminal(db.tasks[row.taskId].status) {
      var task := db.tasks[row.taskId];
      ReservationIsFreed(db.ledger, row.taskId, task, now);
      FailureIsRecorded(db.events, row.taskId, task, now);
      SnapshotIsDropped(row, task);
      AnswerIsFailed(db.answers, row.taskId, task);
      SessionIsReopened(db.intakes, row.taskId, task, now);
      JobIsReopened(db.jobs, row.taskId, task);
    }
  }

  // ----- sums over the outbox -----

  function RowSum(outbox: seq<OutboxRow>, share: OutboxRow -> int): int {
    if outbox == [] then 0 else RowSum(outbox[..|outbox| - 1], share) + share(outbox[|outbox| - 1])
  }

  lemma {:induction false} RowSumUpdate(outbox: seq<OutboxRow>, i: nat, row: OutboxRow, share: OutboxRow -> int)
    requires i < |outbox|
    ensures RowSum(outbox[i := row], share) == RowSum(outbox, share) - share(outbox[i]) + share(row)
    decreases |outbox|
  {
    var last := |outbox| - 1;
    if i == last {
      assert outbox[i := row][..last] == outbox[..last];
    } else {
      assert outbox[i := row][..last] == outbox[..last][i := row];
      RowSumUpdate(outbox[..last], i, row, share);
    }
  }

  function Sent1(): OutboxRow -> int {
    (row: OutboxRow) => if row.dispatchedAt.Some? then 1 else 0
  }

  /** How many rows are dispatched. */
  function DispatchedRows(outbox: seq<OutboxRow>): int {
    RowSum(outbox, Sent1())
  }

  // ----- dispatching -----

  function Published(db: Db, i: nat, m: Meeting): Db
    requires i < |db.outbox|
  {
    db.(calls := db.calls + [Call(db.outbox[i].taskId, m.now)])
  }

  predicate Due(row: OutboxRow, now: int) {
    !Settled(row) && row.availableAt <= now
  }

  /** A due row after an attempt to publish its task. */
  function Tried(row: OutboxRow, m: Meeting, base: nat): OutboxRow {
    var tried := row.(attempts := row.attempts + 1);
    if m.failure.None? then tried.(dispatchedAt := Some(m.now), lastError := None)
    else if tried.attempts >= MAX_DISPATCH_ATTEMPTS then tried.(lastError := m.failure, exhaustedAt := Some(m.now))
    else tried.(lastError := m.failure, availableAt := m.now + Delay(base, tried.attempts, m.jitter))
  }

  /** The row was tried once more: sent, or available again after the wait, or used up with the third attempt. */
  predicate TriedOnce(before: OutboxRow, after: OutboxRow, m: Meeting, base: nat) {
    if m.failure.None? then
      after == before.(attempts := before.attempts + 1, dispatchedAt := Some(m.now), lastError := None)
    else if before.attempts >= 2 then
      after == before.(attempts := before.attempts + 1, exhaustedAt := Some(m.now), lastError := m.failure,
                       payload := after.payload)
    else
      after == before.(attempts := before.attempts + 1, lastError := m.failure,
                       availableAt := m.now + (if before.attempts == 0 then base else 2 * base)
                                      + (if m.jitter > 0 then m.jitter else 0))
  }

  /** A look at a row: nothing happens when it is settled or not due; its task fails when it is exhausted. */
  function AfterLook(db: Db, i: nat, m: Meeting, base: nat): Db
    requires i < |db.outbox|
  {
    if !Due(db.outbox[i], m.now) then db
    else
      var row := Tried(db.outbox[i], m, base);
      var called := Published(db, i, m).(outbox := db.outbox[i := row]);
      if row.exhaustedAt.Some? then AfterFailing(called, i, m.now) else called
  }

  /** What a look does to its own row; no other row changes. */
  lemma LookAtRow(db: Db, i: nat, m: Meeting, base: nat)
    requires i < |db.outbox|
    ensures var row := db.outbox[i];
            var after := AfterLook(db, i, m, base);
            && |after.outbox| == |db.outbox|
            && after.outbox == db.outbox[i := after.outbox[i]]
            && (!Due(row, m.now) ==> after == db)
            && (Due(row, m.now) ==>
                  && after.outbox[i].(payload := row.payload) == Tried(row, m, base)
                  && after.calls == db.calls + [Call(row.taskId, m.now)])
  {
  }

  /** What a look at row `i` comes to: nothing, or one call, one attempt and, if it was the last, the task's failure. */
  ghost predicate Looked(db: Db, i: nat, m: Meeting, base: nat, after: Db)
    requires i < |db.outbox|
  {
    var row := db.outbox[i];
    if row.dispatchedAt.Some? || row.exhaustedAt.Some? || m.now < row.availableAt then after == db
    else
      && after.calls == db.calls + [Call(row.taskId, m.now)]
      && |after.outbox| == |db.outbox| && after.outbox == db.outbox[i := after.outbox[i]]
      && TriedOnce(row, after.outbox[i], m, base)
      && var tried := db.(calls := after.calls, outbox := db.outbox[i := after.outbox[i].(payload := row.payload)]);
         if m.failure.Some? && row.attempts >= 2 then GivesBack(tried, i, m.now, after) else after == tried
  }

  lemma LookTells(db: Db, i: nat, m: Meeting, base: nat)
    requires i < |db.outbox|
    ensures Looked(db, i, m, base, AfterLook(db, i, m, base))
  {
    hide AfterFailing, GivesBack, Delay;
    if Due(db.outbox[i], m.now) {
      var row := Tried(db.outbox[i], m, base);
      LookAtRow(db, i, m, base);
      if db.outbox[i].attempts < 2 {
        DelayOf(base, db.outbox[i].attempts, m.jitter);
      }
      if row.exhaustedAt.Some? {
        FailingGivesBack(Published(db, i, m).(outbox := db.outbox[i := row]), i, m.now);
      }
    }
  }

  lemma DelayOf(base: nat, attempts: nat, jitter: int)
    requires attempts < 2
    ensures Delay(base, attempts + 1, jitter)
         == (if attempts == 0 then base else 2 * base) + (if jitter > 0 then jitter else 0)
  {
    assert Pow2(0) == 1 && Pow2(1) == 2;
  }

  lemma LookSends(db: Db, i: nat, m: Meeting, base: nat)
    requires i < |db.outbox|
    ensures |AfterLook(db, i, m, base).outbox| == |db.outbox|
    ensures DispatchedRows(AfterLook(db, i, m, base).outbox)
            == DispatchedRows(db.outbox) + if Due(db.outbox[i], m.now) && m.failure.None? then 1 else 0
  {
    hide AfterLook;
    LookAtRow(db, i, m, base);
    RowSumUpdate(db.outbox, i, AfterLook(db, i, m, base).outbox[i], Sent1());
  }

  datatype Outcome = Sent | NotSent | Busy | NoOutboxRow

  function FindRow(outbox: seq<OutboxRow>, taskId: string): (i: nat)
    ensures i <= |outbox| && (i < |outbox| ==> outbox[i].taskId == taskId)
    ensures forall j :: 0 <= j < i ==> outbox[j].taskId != taskId
  {
    if outbox == [] then 0 else if outbox[0].taskId == taskId then 0 else 1 + FindRow(outbox[1..], taskId)
  }

  /** The first `limit` rows that are due, in the order of the table (by creation time and id). */
  function DueRows(outbox: seq<OutboxRow>, now: int, limit: nat, from: nat): (r: seq<nat>)
    requires from <= |outbox|
    ensures |r| <= limit
    ensures forall k :: 0 <= k < |r| ==> from <= r[k] < |outbox| && Due(outbox[r[k]], now)
    decreases |outbox| - from
  {
    if from == |outbox| || limit == 0 then []
    else if Due(outbox[from], now) then [from] + DueRows(outbox, now, limit - 1, from + 1)
    else DueRows(outbox, now, limit, from + 1)
  }

  /** Looks at the rows one after another; the k-th look meets `met(k)`. */
  function AfterLooks(db: Db, rows: seq<nat>, met: nat -> Meeting, base: nat): (r: Db)
    requires forall k :: 0 <= k < |rows| ==> rows[k] < |db.outbox|
    ensures |r.outbox| == |db.outbox|
    decreases |rows|
  {
    if rows == [] then db
    else
      var before := AfterLooks(db, rows[..|rows| - 1], met, base);
      AfterLook(before, rows[|rows| - 1], met(|rows| - 1), base)
  }

  // ----- which rows a pending dispatch calls for -----

  /** The row waits to be sent: it has no ending yet, and its time has come. */
  predicate Waiting(row: OutboxRow, now: int) {
    row.dispatchedAt == None && row.exhaustedAt == None && row.availableAt <= now
  }

  /** How many rows before the `i`-th wait. */
  function Rank(outbox: seq<OutboxRow>, now: int, i: nat): nat
    requires i <= |outbox|
  {
    if i == 0 then 0 else Rank(outbox, now, i - 1) + if Waiting(outbox[i - 1], now) then 1 else 0
  }

  /** The row is one of the first `limit` that wait at the call, and its time has come still when it is looked at. */
  predicate CalledFor(outbox: seq<OutboxRow>, now: int, limit: nat, met: nat -> Meeting, i: nat)
    requires i < |outbox|
  {
    && Waiting(outbox[i], now) && Rank(outbox, now, i) < limit
    && outbox[i].availableAt <= met(Rank(outbox, now, i)).now
  }

  /** One call for each such row among the first `n`, in the order of the table. */
  function CallsMade(outbox: seq<OutboxRow>, now: int, limit: nat, met: nat -> Meeting, n: nat): seq<Call>
    requires n <= |outbox|
  {
    if n == 0 then []
    else
      CallsMade(outbox, now, limit, met, n - 1)
      + if CalledFor(outbox, now, limit, met, n - 1)
        then [Call(outbox[n - 1].taskId, met(Rank(outbox, now, n - 1)).now)] else []
  }

  /** After the rows before the `n`-th: their calls are made, each of them that was called for was tried once. */
  ghost predicate DispatchedUpTo(db: Db, now: int, limit: nat, met: nat -> Meeting, base: nat, n: nat, after: Db) {
    && n <= |db.outbox| == |after.outbox|
    && after.calls == db.calls + CallsMade(db.outbox, now, limit, met, n)
    && forall i :: 0 <= i < |db.outbox| ==>
                     if i < n && CalledFor(db.outbox, now, limit, met, i)
                     then TriedOnce(db.outbox[i], after.outbox[i], met(Rank(db.outbox, now, i)), base)
                     else after.outbox[i] == db.outbox[i]
  }

  predicate Ascending(r: seq<nat>) {
    forall k, l :: 0 <= k < l < |r| ==> r[k] < r[l]
  }

  /** Each of the rows waits, and the k-th has the k-th rank from there on. */
  predicate RankedRows(outbox: seq<OutboxRow>, now: int, limit: nat, from: nat, r: seq<nat>)
    requires from <= |outbox|
  {
    |r| <= limit && forall k :: 0 <= k < |r| ==>
                                  from <= r[k] < |outbox| && Waiting(outbox[r[k]], now)
                                  && Rank(outbox, now, r[k]) == Rank(outbox, now, from) + k
  }

  /** No row of a rank below the limit is missing. */
  predicate NoneMissing(outbox: seq<OutboxRow>, now: int, limit: nat, from: nat, r: seq<nat>)
    requires from <= |outbox|
  {
    forall i :: from <= i < |outbox| && Waiting(outbox[i], now) ==>
                  i in r || Rank(outbox, now, i) >= Rank(outbox, now, from) + limit
  }

  /** The rows ascend, the k-th has the k-th rank from there on, and no row of a rank below the limit is missing. */
  predicate Ranked(outbox: seq<OutboxRow>, now: int, limit: nat, from: nat, r: seq<nat>)
    requires from <= |outbox|
  {
    Ascending(r) && RankedRows(outbox, now, limit, from, r) && NoneMissing(outbox, now, limit, from, r)
  }

  lemma {:induction false} DueRowsRanked(outbox: seq<OutboxRow>, now: int, limit: nat, from: nat)
    requires from <= |outbox|
    ensures Ranked(outbox, now, limit, from, DueRows(outbox, now, limit, from))
    decreases |outbox| - from
  {
    hide Ranked, Rank;
    if from == |outbox| || limit == 0 {
      RankedToEnd(outbox, now, limit, from);
    } else if Due(outbox[from], now) {
      DueRowsRanked(outbox, now, limit - 1, from + 1);
      RankedFrom(outbox, now, limit - 1, from, DueRows(outbox, now, limit - 1, from + 1));
    } else {
      DueRowsRanked(outbox, now, limit, from + 1);
      RankedBehind(outbox, now, limit, from, DueRows(outbox, now, limit, from + 1));
    }
  }

  lemma RankedToEnd(outbox: seq<OutboxRow>, now: int, limit: nat, from: nat)
    requires from <= |outbox| && (from == |outbox| || limit == 0)
    ensures Ranked(outbox, now, limit, from, [])
  {
    forall i | from <= i < |outbox| ensures Rank(outbox, now, from) <= Rank(outbox, now, i) {
      RankGrows(outbox, now, from, i);
    }
  }

  lemma RankedBehind(outbox: seq<OutboxRow>, now: int, limit: nat, from: nat, rest: seq<nat>)
    requires from < |outbox| && !Waiting(outbox[from], now) && Ranked(outbox, now, limit, from + 1, rest)
    ensures Ranked(outbox, now, limit, from, rest)
  {
    assert Rank(outbox, now, from + 1) == Rank(outbox, now, from);
    hide Rank, Waiting, Ascending;
    forall i | from <= i < |outbox| && Waiting(outbox[i], now)
      ensures i in rest || Rank(outbox, now, i) >= Rank(outbox, now, from) + limit
    {
      assert i != from;
    }
  }

  lemma RankedFrom(outbox: seq<OutboxRow>, now: int, limit: nat, from: nat, rest: seq<nat>)
    requires from < |outbox| && Waiting(outbox[from], now) && Ranked(outbox, now, limit, from + 1, rest)
    ensures Ranked(outbox, now, limit + 1, from, [from] + rest)
  {
    assert Rank(outbox, now, from + 1) == Rank(outbox, now, from) + 1;
    hide Rank, Waiting;
    assert Ascending([from] + rest);
    assert RankedRows(outbox, now, limit + 1, from, [from] + rest);
    assert forall i :: i in [from] + rest <==> i == from || i in rest;
    assert NoneMissing(outbox, now, limit + 1, from, [from] + rest);
    hide Ascending, RankedRows, NoneMissing;
  }

  lemma {:induction false} RankGrows(outbox: seq<OutboxRow>, now: int, i: nat, j: nat)
    requires i <= j <= |outbox|
    ensures Rank(outbox, now, i) <= Rank(outbox, now, j)
    ensures i < j && Waiting(outbox[i], now) ==> Rank(outbox, now, i) < Rank(outbox, now, j)
    decreases j
  {
    if i < j {
      RankGrows(outbox, now, i, j - 1);
    }
  }

  /** Rows that are not called for add no calls. */
  lemma {:induction false} NobodyCalledFor(db: Db, now: int, limit: nat, met: nat -> Meeting, base: nat, n: nat, m: nat,
                                           after: Db)
    requires n <= m <= |db.outbox| && DispatchedUpTo(db, now, limit, met, base, n, after)
    requires forall i :: n <= i < m ==> !CalledFor(db.outbox, now, limit, met, i)
    ensures DispatchedUpTo(db, now, limit, met, base, m, after)
    decreases m
  {
    hide CalledFor, TriedOnce;
    if n < m {
      NobodyCalledFor(db, now, limit, met, base, n, m - 1, after);
    }
  }

  lemma LookDispatches(db: Db, now: int, limit: nat, met: nat -> Meeting, base: nat, n: nat, before: Db)
    requires n < |db.outbox| && DispatchedUpTo(db, now, limit, met, base, n, before)
    requires Waiting(db.outbox[n], now) && Rank(db.outbox, now, n) < limit
    ensures DispatchedUpTo(db, now, limit, met, base, n + 1,
                           AfterLook(before, n, met(Rank(db.outbox, now, n)), base))
  {
    hide AfterLook, TriedOnce, GivesBack;
    LookTells(before, n, met(Rank(db.outbox, now, n)), base);
  }

  /** The selected rows, looked at one after another, are dispatched as called for. */
  lemma {:induction false} LooksDispatch(db: Db, now: int, limit: nat, met: nat -> Meeting, base: nat, k: nat)
    requires k <= |DueRows(db.outbox, now, limit, 0)|
    ensures var rows := DueRows(db.outbox, now, limit, 0);
            var n := if k == |rows| then |db.outbox| else rows[k];
            DispatchedUpTo(db, now, limit, met, base, n, AfterLooks(db, rows[..k], met, base))
  {
    hide AfterLook, CalledFor, DispatchedUpTo, DueRows, Rank, Waiting, CallsMade, Ranked;
    var rows := DueRows(db.outbox, now, limit, 0);
    DueRowsRanked(db.outbox, now, limit, 0);
    var n := if k == |rows| then |db.outbox| else rows[k];
    var after := AfterLooks(db, rows[..k], met, base);
    var from := if k == 0 then 0 else rows[k - 1] + 1;
    BetweenRows(db.outbox, now, limit, met, rows, k);
    assert DispatchedUpTo(db, now, limit, met, base, from, after) by {
      if k == 0 {
        NothingDispatched(db, now, limit, met, base);
      } else {
        LooksDispatch(db, now, limit, met, base, k - 1);
        assert rows[..k][..k - 1] == rows[..k - 1];
        LookDispatches(db, now, limit, met, base, rows[k - 1], AfterLooks(db, rows[..k - 1], met, base));
      }
    }
    NobodyCalledFor(db, now, limit, met, base, from, n, after);
  }

  /** Between two selected rows, before the first and after the last nobody is called for. */
  lemma BetweenRows(outbox: seq<OutboxRow>, now: int, limit: nat, met: nat -> Meeting, rows: seq<nat>, k: nat)
    requires Ranked(outbox, now, limit, 0, rows) && k <= |rows|
    ensures var from, to := if k == 0 then 0 else rows[k - 1] + 1, if k == |rows| then |outbox| else rows[k];
            from <= to && forall i :: from <= i < to ==> !CalledFor(outbox, now, limit, met, i)
    ensures k > 0 ==> Waiting(outbox[rows[k - 1]], now) && Rank(outbox, now, rows[k - 1]) == k - 1 < limit
  {
    hide Waiting;
    assert Rank(outbox, now, 0) == 0;
    var from, to := if k == 0 then 0 else rows[k - 1] + 1, if k == |rows| then |outbox| else rows[k];
    hide Rank;
    forall i | from <= i < to ensures i !in rows {
      forall l | 0 <= l < |rows| ensures rows[l] != i {
        assert l < k ==> rows[l] <= rows[k - 1];
      }
    }
  }

  lemma NothingDispatched(db: Db, now: int, limit: nat, met: nat -> Meeting, base: nat)
    ensures DispatchedUpTo(db, now, limit, met, base, 0, db)
  {
  }

  class OutboxDispatcher {
    const retryBase: nat
    var outbox: seq<OutboxRow>
    var tasks: map<string, Task>
    var ledger: seq<Entry>
    var answers: map<string, IntakeAnswer>
    var intakes: map<string, IntakeSession>
    var jobs: map<string, JobDescription>
    var events: seq<TaskEvent>
    var calls: seq<Call>

    ghost function State(): Db
      reads this
    {
      Db(outbox, tasks, ledger, answers, intakes, jobs, events, calls)
    }

    constructor (retryBase: nat, db: Db)
      ensures this.retryBase == retryBase && State() == db
    {
      this.retryBase := retryBase;
      outbox, tasks, ledger, answers := db.outbox, db.tasks, db.ledger, db.answers;
      intakes, jobs, events, calls := db.intakes, db.jobs, db.events, db.calls;
    }

    method FailExhaustedTask(i: nat, now: int)
      requires i < |outbox|
      modifies this
      ensures State() == AfterFailing(old(State()), i, now)
      ensures GivesBack(old(State()), i, now, State())
    {
      hide FailedAnswers, ReopenedIntakes, ReopenedJobs, Stripped, FailedTask, LastNumber, FindReservation, Terminal,
           GivesBack;
      FailingGivesBack(State(), i, now);
      var row := outbox[i];
      if row.taskId !in tasks || tasks[row.taskId].owner != row.owner || Terminal(tasks[row.taskId].status) {
        return;
      }
      var task := tasks[row.taskId];
      tasks := tasks[row.taskId := FailedTask(task, now)];
      if task.usageType == AI_TASK && task.activeAiRunId.None? {
        var reservation := FindReservation(ledger, row.taskId, task.owner);
        if reservation < |ledger| {
          ledger := ledger[reservation := ledger[reservation].(state := Released, updatedAt := now)];
        }
      }
      answers := FailedAnswers(answers, row.taskId, task);
      intakes := ReopenedIntakes(intakes, row.taskId, task, now);
      jobs := ReopenedJobs(jobs, row.taskId, task);
      outbox := outbox[i := row.(payload := Stripped(row.payload, task))];
      var number := LastNumber(events, row.taskId, task.owner) + 1;
      events := events + [TaskEvent(row.taskId, task.owner, number, "failed", task.progress, now)];
    }

    method DispatchLocked(i: nat, m: Meeting) returns (outcome: Outcome)
      requires i < |outbox|
      modifies this
      ensures State() == AfterLook(old(State()), i, m, retryBase)
      ensures Looked(old(State()), i, m, retryBase, State())
      ensures var row := old(outbox[i]);
              outcome == if row.dispatchedAt.Some? || row.exhaustedAt.Some? then NotSent
                         else if row.availableAt <= m.now && m.failure.None? then Sent else Busy
    {
      hide AfterFailing, Delay, GivesBack, Looked;
      LookTells(State(), i, m, retryBase);
      if outbox[i].dispatchedAt.Some? || outbox[i].exhaustedAt.Some? {
        return NotSent;
      }
      if outbox[i].availableAt > m.now {
        return Busy;
      }
      outbox := outbox[i := outbox[i].(attempts := outbox[i].attempts + 1)];
      calls := calls + [Call(outbox[i].taskId, m.now)];
      if m.failure.Some? {
        outbox := outbox[i := outbox[i].(lastError := m.failure)];
        if outbox[i].attempts >= MAX_DISPATCH_ATTEMPTS {
          outbox := outbox[i := outbox[i].(exhaustedAt := Some(m.now))];
          assert outbox == old(outbox)[i := Tried(old(outbox[i]), m, retryBase)];
          FailExhaustedTask(i, m.now);
        } else {
          var delay := Delay(retryBase, outbox[i].attempts, m.jitter);
          outbox := outbox[i := outbox[i].(availableAt := m.now + delay)];
        }
        return Busy;
      }
      outbox := outbox[i := outbox[i].(dispatchedAt := Some(m.now))];
      outbox := outbox[i := outbox[i].(lastError := None)];
      outcome := Sent;
    }

    method DispatchTask(taskId: string, m: Meeting) returns (outcome: Outcome)
      modifies this
      ensures var i := FindRow(old(outbox), taskId);
              State() == if i < |old(outbox)| then AfterLook(old(State()), i, m, retryBase) else old(State())
      ensures outcome == NoOutboxRow <==> forall j :: 0 <= j < |old(outbox)| ==> old(outbox)[j].taskId != taskId
      ensures if outcome == NoOutboxRow then State() == old(State())
              else exists i :: 0 <= i < |old(outbox)| && old(outbox)[i].taskId == taskId
                               && Looked(old(State()), i, m, retryBase, State())
      ensures DispatchedRows(outbox) == DispatchedRows(old(outbox)) + if outcome == Sent then 1 else 0
    {
      hide Looked, AfterLook;
      var i := FindRow(outbox, taskId);
      if i == |outbox| {
        return NoOutboxRow;
      }
      LookSends(State(), i, m, retryBase);
      outcome := DispatchLocked(i, m);
    }

    method DispatchPending(limit: nat, now: int, met: nat -> Meeting) returns (dispatched: nat)
      modifies this
      ensures State() == AfterLooks(old(State()), DueRows(old(outbox), now, limit, 0), met, retryBase)
      ensures DispatchedUpTo(old(State()), now, limit, met, retryBase, |old(outbox)|, State())
      ensures DispatchedRows(outbox) == DispatchedRows(old(outbox)) + dispatched
    {
      hide AfterLook, DispatchedUpTo, Looked;
      var rows := DueRows(outbox, now, limit, 0);
      dispatched := 0;
      for k := 0 to |rows|
        invariant |outbox| == |old(outbox)|
        invariant State() == AfterLooks(old(State()), rows[..k], met, retryBase)
        invariant DispatchedRows(outbox) == DispatchedRows(old(outbox)) + dispatched
      {
        LookSends(State(), rows[k], met(k), retryBase);
        assert rows[..k + 1][..k] == rows[..k];
        var outcome := DispatchLocked(rows[k], met(k));
        if outcome == Sent {
          dispatched := dispatched + 1;
        }
      }
      assert rows[..|rows|] == rows;
      LooksDispatch(old(State()), now, limit, met, retryBase, |rows|);
    }
  }
}

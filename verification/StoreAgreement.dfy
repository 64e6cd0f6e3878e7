/** The answers of the two run stores side by side, and what holds of the Redis store because of it. */
module StoreAgreement {
  import opened RunProtocol
  import opened RunStore
  import opened Wrappers
  import Memory = MemoryRunStore
  import Redis = RedisRunStore

  function ReplyStatus(reply: Reply): Option<RunStatus> {
    match reply
    case Created(run) => Some(run.status)
    case Existing(run) => Some(run.status)
    case Conflict(run) => Some(run.status)
    case Record(Some(run)) => Some(run.status)
    case CancelTerminal(status) => Some(status)
    case _ => None
  }

  /**
   * When the two stores report different statuses, told from the records before the call. Only the Redis store
   * reads again after it writes, so it notices a lapsed lease that the memory store passes on: one met by a
   * create, by a completion of a stranger, or left by a mark-running whose lease does not last. And it does not
   * find a run again under the empty id. A cancel looks for no lapsed lease: it is answered by what is written.
   */
  predicate Part(runs: Runs, hashes: Redis.Hashes, op: Op, now: int, leaseMs: int) {
    match op
    case CreateOrGet(id, record) => id == "" || Lapsed(if id in runs then runs[id] else record, now)
    case Get(id) => id == "" && id in runs
    case MarkRunning(id) =>
      id in runs
      && (id == "" || (leaseMs <= 0 && !IsTerminal(runs[id].status) && now < runs[id].leaseExpiresAt))
    case Complete(id, instance, _, _, _) =>
      id in runs && (id == "" || (Lapsed(runs[id], now) && runs[id].owner != instance))
    case RequestCancel(id) =>
      id in runs && id in hashes && (IsTerminal(runs[id].status) <==> !IsTerminal(hashes[id].status))
    case Heartbeat(_, _) => false
  }

  lemma PartOnCreate(runs: Runs, hashes: Redis.Hashes, op: Op, before: int, now: int, leaseMs: int)
    requires ValidOp(op) && before <= now && Simulates(runs, hashes, before) && op.CreateOrGet?
    ensures ReplyStatus(Memory.Answer(runs, op, now, leaseMs)) == ReplyStatus(Redis.Answer(hashes, op, now, leaseMs))
       <==> !Part(runs, hashes, op, now, leaseMs)
  {
    hide TerminalReceipt;
    if op.id in runs {
      assert Alike(runs[op.id], Redis.Deserialize(hashes[op.id]), before);
    }
  }

  lemma PartOnGet(runs: Runs, hashes: Redis.Hashes, op: Op, before: int, now: int, leaseMs: int)
    requires ValidOp(op) && before <= now && Simulates(runs, hashes, before) && op.Get?
    ensures ReplyStatus(Memory.Answer(runs, op, now, leaseMs)) == ReplyStatus(Redis.Answer(hashes, op, now, leaseMs))
       <==> !Part(runs, hashes, op, now, leaseMs)
  {
    hide TerminalReceipt;
    if op.id in runs {
      assert Alike(runs[op.id], Redis.Deserialize(hashes[op.id]), before);
    }
  }

  lemma PartOnMarkRunning(runs: Runs, hashes: Redis.Hashes, op: Op, before: int, now: int, leaseMs: int)
    requires ValidOp(op) && before <= now && Simulates(runs, hashes, before) && op.MarkRunning?
    ensures ReplyStatus(Memory.Answer(runs, op, now, leaseMs)) == ReplyStatus(Redis.Answer(hashes, op, now, leaseMs))
       <==> !Part(runs, hashes, op, now, leaseMs)
  {
    hide TerminalReceipt;
    if op.id in runs {
      assert Alike(runs[op.id], Redis.Deserialize(hashes[op.id]), before);
    }
  }

  lemma PartOnComplete(runs: Runs, hashes: Redis.Hashes, op: Op, before: int, now: int, leaseMs: int)
    requires ValidOp(op) && before <= now && Simulates(runs, hashes, before) && op.Complete?
    ensures ReplyStatus(Memory.Answer(runs, op, now, leaseMs)) == ReplyStatus(Redis.Answer(hashes, op, now, leaseMs))
       <==> !Part(runs, hashes, op, now, leaseMs)
  {
    hide TerminalReceipt;
    if op.id in runs {
      assert Alike(runs[op.id], Redis.Deserialize(hashes[op.id]), before);
    }
  }

  lemma PartOnCancel(runs: Runs, hashes: Redis.Hashes, op: Op, before: int, now: int, leaseMs: int)
    requires ValidOp(op) && before <= now && Simulates(runs, hashes, before) && op.RequestCancel?
    ensures ReplyStatus(Memory.Answer(runs, op, now, leaseMs)) == ReplyStatus(Redis.Answer(hashes, op, now, leaseMs))
       <==> !Part(runs, hashes, op, now, leaseMs)
    ensures Memory.Answer(runs, op, now, leaseMs) == Redis.Answer(hashes, op, now, leaseMs)
       <==> !Part(runs, hashes, op, now, leaseMs) && (op.id in runs && runs[op.id].owner == "" ==>
                                                        IsTerminal(runs[op.id].status))
  {
    hide TerminalReceipt;
    if op.id in runs {
      assert Alike(runs[op.id], Redis.Deserialize(hashes[op.id]), before);
    }
  }

  lemma PartOnOne(runs: Runs, hashes: Redis.Hashes, op: Op, before: int, now: int, leaseMs: int)
    requires ValidOp(op) && before <= now && Simulates(runs, hashes, before)
    ensures ReplyStatus(Memory.Answer(runs, op, now, leaseMs)) == ReplyStatus(Redis.Answer(hashes, op, now, leaseMs))
       <==> !Part(runs, hashes, op, now, leaseMs)
  {
    hide Memory.Next, Redis.Next, Simulates;
    match op
    case CreateOrGet(_, _) => PartOnCreate(runs, hashes, op, before, now, leaseMs);
    case Get(_) => PartOnGet(runs, hashes, op, before, now, leaseMs);
    case MarkRunning(_) => PartOnMarkRunning(runs, hashes, op, before, now, leaseMs);
    case Complete(_, _, _, _, _) => PartOnComplete(runs, hashes, op, before, now, leaseMs);
    case RequestCancel(_) => PartOnCancel(runs, hashes, op, before, now, leaseMs);
    case Heartbeat(_, _) =>
  }

  /** Driven by one trace, the two stores answer any next call with different statuses exactly when they part. */
  lemma AnswersPartExactly(start: int, trace: seq<Timed>, leaseMs: int, op: Op, now: int)
    requires ValidTrace(trace) && ClockFrom(start, trace) && LastTime(start, trace) <= now && ValidOp(op)
    ensures ReplyStatus(Memory.Answer(Final(map[], trace, leaseMs), op, now, leaseMs))
         == ReplyStatus(Redis.Answer(RedisFinal(map[], trace, leaseMs), op, now, leaseMs))
       <==> !Part(Final(map[], trace, leaseMs), RedisFinal(map[], trace, leaseMs), op, now, leaseMs)
  {
    Simulation(start, trace, leaseMs);
    PartOnOne(Final(map[], trace, leaseMs), RedisFinal(map[], trace, leaseMs), op,
              LastTime(start, trace), now, leaseMs);
  }

  /** Every read of a run, at any later time, reports the same status from both stores. */
  lemma SameStatusThroughGet(start: int, trace: seq<Timed>, leaseMs: int, id: string, now: int)
    requires ValidTrace(trace) && ClockFrom(start, trace) && LastTime(start, trace) <= now && id != ""
    ensures ReplyStatus(Memory.Answer(Final(map[], trace, leaseMs), Get(id), now, leaseMs))
         == ReplyStatus(Redis.Answer(RedisFinal(map[], trace, leaseMs), Get(id), now, leaseMs))
  {
    hide TerminalReceipt, Final, RedisFinal, Memory.Answer, Redis.Answer;
    AnswersPartExactly(start, trace, leaseMs, Get(id), now);
  }

  /** A new run whose mark-running renews the lease by nothing: one store says running, the other that it is lost. */
  lemma MarkRunningParts(record: RunRecord, id: string)
    requires record.status == Queued && record.leaseExpiresAt == 10 && record.owner != "" && id != ""
    ensures var trace := [Timed(CreateOrGet(id, record), 0)];
            && ReplyStatus(Memory.Answer(Final(map[], trace, 0), MarkRunning(id), 5, 0)) == Some(Running)
            && ReplyStatus(Redis.Answer(RedisFinal(map[], trace, 0), MarkRunning(id), 5, 0)) == Some(Failed)
  {
    var trace := [Timed(CreateOrGet(id, record), 0)];
    assert trace[..0] == [];
    assert Final(map[], trace, 0) == map[id := record];
    assert RedisFinal(map[], trace, 0) == map[id := Redis.Serialize(record)];
  }

  /** The whole answers to a cancel agree exactly when the statuses do and an unfinished run has an owner's name. */
  lemma CancelsAgreeExactly(start: int, trace: seq<Timed>, leaseMs: int, id: string, now: int)
    requires ValidTrace(trace) && ClockFrom(start, trace) && LastTime(start, trace) <= now
    ensures var runs, hashes := Final(map[], trace, leaseMs), RedisFinal(map[], trace, leaseMs);
            var cancel := RequestCancel(id);
            Memory.Answer(runs, cancel, now, leaseMs) == Redis.Answer(hashes, cancel, now, leaseMs)
            <==> (id in runs ==> id in hashes && (IsTerminal(runs[id].status) <==> IsTerminal(hashes[id].status))
                                 && (runs[id].owner == "" ==> IsTerminal(runs[id].status)))
  {
    hide Final, RedisFinal, Memory.Answer, Redis.Answer;
    Simulation(start, trace, leaseMs);
    PartOnCancel(Final(map[], trace, leaseMs), RedisFinal(map[], trace, leaseMs), RequestCancel(id),
                 LastTime(start, trace), now, leaseMs);
  }

  /** A lapsed run that is created once more, then cancelled: accepted by one store, failed already in the other. */
  lemma CancelParts(record: RunRecord, id: string)
    requires record.status == Queued && record.leaseExpiresAt == 10 && record.owner != "" && id != ""
    ensures var trace := [Timed(CreateOrGet(id, record), 0), Timed(CreateOrGet(id, record), 20)];
            && Memory.Answer(Final(map[], trace, 5), RequestCancel(id), 20, 5) == CancelAccepted(record.owner)
            && Redis.Answer(RedisFinal(map[], trace, 5), RequestCancel(id), 20, 5) == CancelTerminal(Failed)
  {
    var first, second := Timed(CreateOrGet(id, record), 0), Timed(CreateOrGet(id, record), 20);
    assert [first, second][..1] == [first] && [first][..0] == [];
    assert Final(map[], [first], 5) == map[id := record];
    assert RedisFinal(map[], [first], 5) == map[id := Redis.Serialize(record)];
    assert Final(map[], [first, second], 5) == map[id := record];
    assert RedisFinal(map[], [first, second], 5) == map[id := Redis.OwnerLost(Redis.Serialize(record))];
  }

  lemma SameControlStep(runs: Runs, hashes: Redis.Hashes, op: Op, before: int, now: int, leaseMs: int)
    requires ValidOp(op) && before <= now && Simulates(runs, hashes, before)
    ensures var memory, redis := Memory.Answer(runs, op, now, leaseMs), Redis.Answer(hashes, op, now, leaseMs);
            && (op.CreateOrGet? && op.id != "" ==>
                  memory.Created? == redis.Created? && memory.Existing? == redis.Existing?)
            && (op.Heartbeat? ==> memory == redis)
  {
    hide TerminalReceipt;
    if op.id in runs {
      assert Alike(runs[op.id], Redis.Deserialize(hashes[op.id]), before);
    }
  }

  /** They also agree on who created a run and on every heartbeat. */
  lemma SameControlReplies(start: int, trace: seq<Timed>, leaseMs: int, op: Op, now: int)
    requires ValidTrace(trace) && ClockFrom(start, trace) && LastTime(start, trace) <= now && ValidOp(op)
    ensures var memory := Memory.Answer(Final(map[], trace, leaseMs), op, now, leaseMs);
            var redis := Redis.Answer(RedisFinal(map[], trace, leaseMs), op, now, leaseMs);
            && (op.CreateOrGet? && op.id != "" ==>
                  memory.Created? == redis.Created? && memory.Existing? == redis.Existing?)
            && (op.Heartbeat? ==> memory == redis)
  {
    Simulation(start, trace, leaseMs);
    SameControlStep(Final(map[], trace, leaseMs), RedisFinal(map[], trace, leaseMs), op, LastTime(start, trace), now,
                    leaseMs);
  }

  // ----- what the simulation carries over -----

  /** The reply of the Redis store at position `i` of a trace. */
  function RedisReplyAt(trace: seq<Timed>, leaseMs: int, i: nat): Reply
    requires ValidTrace(trace) && i < |trace|
  {
    Redis.Answer(RedisFinal(map[], trace[..i], leaseMs), trace[i].op, trace[i].now, leaseMs)
  }

  lemma PrefixClock(start: int, trace: seq<Timed>, i: nat)
    requires ValidTrace(trace) && ClockFrom(start, trace) && i < |trace|
    ensures ValidTrace(trace[..i]) && ClockFrom(start, trace[..i]) && LastTime(start, trace[..i]) <= trace[i].now
  {
  }

  /** An ending that the Redis store has on record is on record in the memory store too. */
  lemma SameEnding(start: int, trace: seq<Timed>, leaseMs: int, id: string)
    requires ValidTrace(trace) && ClockFrom(start, trace)
    ensures var runs, hashes := Final(map[], trace, leaseMs), RedisFinal(map[], trace, leaseMs);
            && (id in runs <==> id in hashes)
            && (id in runs ==> (hashes[id].status == Succeeded <==> runs[id].status == Succeeded))
            && (id in runs ==> (hashes[id].status == Cancelled <==> runs[id].status == Cancelled))
  {
    hide Final, RedisFinal;
    Simulation(start, trace, leaseMs);
    var runs, hashes := Final(map[], trace, leaseMs), RedisFinal(map[], trace, leaseMs);
    if id in runs {
      assert Alike(runs[id], Redis.Deserialize(hashes[id]), LastTime(start, trace));
    }
  }

  /** Cancel wins in the Redis store. */
  lemma RedisCancelWins(start: int, trace: seq<Timed>, leaseMs: int, i: nat)
    requires ValidTrace(trace) && ClockFrom(start, trace) && i < |trace| && trace[i].op.RequestCancel?
    requires RedisReplyAt(trace, leaseMs, i).CancelAccepted?
    ensures var id := trace[i].op.id;
            id in RedisFinal(map[], trace, leaseMs) && RedisFinal(map[], trace, leaseMs)[id].status != Succeeded
  {
    hide Final, RedisFinal;
    var id, part := trace[i].op.id, trace[..i];
    PrefixClock(start, trace, i);
    Simulation(start, part, leaseMs);
    var runs, hashes := Final(map[], part, leaseMs), RedisFinal(map[], part, leaseMs);
    assert id in hashes && Alike(runs[id], Redis.Deserialize(hashes[id]), LastTime(start, part));
    if IsTerminal(runs[id].status) {
      TerminalForever(trace, leaseMs, i, id);
    } else {
      CancelWins(trace, leaseMs, i);
    }
    SameEnding(start, trace, leaseMs, id);
  }

  /** The position at which the owner, under a live lease, completed the run in the Redis store. */
  ghost predicate RedisCompletedByOwner(trace: seq<Timed>, leaseMs: int, id: string, i: nat)
    requires ValidTrace(trace)
  {
    && i < |trace| && trace[i].op.Complete? && trace[i].op.id == id
    && var before := RedisFinal(map[], trace[..i], leaseMs);
       id in before && !IsTerminal(before[id].status)
       && trace[i].op.instance == before[id].owner && before[id].leaseExpiresAt > trace[i].now
  }

  lemma CreatedAt(trace: seq<Timed>, leaseMs: int, c: nat)
    requires ValidTrace(trace) && c < |trace| && trace[c].op.CreateOrGet?
    requires trace[c].op.id !in Final(map[], trace[..c], leaseMs)
    ensures var runs := Final(map[], trace[..c + 1], leaseMs);
            trace[c].op.id in runs && runs[trace[c].op.id] == trace[c].op.record
  {
    assert trace[..c + 1][..c] == trace[..c] && trace[..c + 1][c] == trace[c];
  }

  /** What a live owner completed in the memory store it completed in the Redis store. */
  lemma OwnerOnBoth(start: int, trace: seq<Timed>, leaseMs: int, c: nat, id: string, j: nat)
    requires ValidTrace(trace) && ClockFrom(start, trace) && c < |trace|
    requires CompletedByOwner(Final(map[], trace[..c + 1], leaseMs), trace[c + 1..], leaseMs, id, j)
    ensures RedisCompletedByOwner(trace, leaseMs, id, c + 1 + j)
  {
    hide Final, RedisFinal;
    var i := c + 1 + j;
    assert trace[..i][..c + 1] == trace[..c + 1] && trace[..i][c + 1..] == trace[c + 1..][..j];
    FinalSplit(map[], trace[..i], leaseMs, c + 1);
    PrefixClock(start, trace, i);
    Simulation(start, trace[..i], leaseMs);
    var runs, hashes := Final(map[], trace[..i], leaseMs), RedisFinal(map[], trace[..i], leaseMs);
    assert Alike(runs[id], Redis.Deserialize(hashes[id]), LastTime(start, trace[..i]));
  }

  /**
   * A run created without an ending that the Redis store has succeeded or cancelled was completed by its live owner.
   */
  lemma RedisOnlyLiveOwnerEnds(start: int, trace: seq<Timed>, leaseMs: int, c: nat)
    requires ValidTrace(trace) && ClockFrom(start, trace) && c < |trace| && trace[c].op.CreateOrGet?
    requires trace[c].op.id !in RedisFinal(map[], trace[..c], leaseMs) && !IsTerminal(trace[c].op.record.status)
    requires var hashes := RedisFinal(map[], trace, leaseMs);
             trace[c].op.id in hashes && hashes[trace[c].op.id].status in {Succeeded, Cancelled}
    ensures exists i :: c < i < |trace| && RedisCompletedByOwner(trace, leaseMs, trace[c].op.id, i)
  {
    hide Final, RedisFinal, CompletedByOwner, RedisCompletedByOwner;
    var id := trace[c].op.id;
    PrefixClock(start, trace, c);
    SameEnding(start, trace[..c], leaseMs, id);
    SameEnding(start, trace, leaseMs, id);
    CreatedAt(trace, leaseMs, c);
    FinalSplit(map[], trace, leaseMs, c + 1);
    OnlyLiveOwnerEnds(Final(map[], trace[..c + 1], leaseMs), trace[c + 1..], leaseMs, id);
    var j: nat :| CompletedByOwner(Final(map[], trace[..c + 1], leaseMs), trace[c + 1..], leaseMs, id, j);
    OwnerOnBoth(start, trace, leaseMs, c, id, j);
    CompletedInTrace(trace, leaseMs, id, c + 1 + j);
  }

  lemma CompletedInTrace(trace: seq<Timed>, leaseMs: int, id: string, i: nat)
    requires ValidTrace(trace) && RedisCompletedByOwner(trace, leaseMs, id, i)
    ensures i < |trace|
  {
  }

  /** The lease ran out by `since`, whether or not the hash says so yet. */
  predicate DeadHash(hash: Redis.Hash, since: int) {
    || (!IsTerminal(hash.status) && hash.leaseExpiresAt <= since)
    || (hash.status == Failed && hash.errorCode == OWNER_LOST)
  }

  lemma DeadHashStep(hash: Redis.Hash, op: Op, now: int, leaseMs: int, since: int)
    requires ValidOp(op) && since <= now && DeadHash(hash, since)
    ensures DeadHash(Redis.After(hash, op, now, leaseMs), since)
    ensures !op.Heartbeat? && !op.RequestCancel? ==>
              Redis.After(hash, op, now, leaseMs).status == Failed
              && Redis.After(hash, op, now, leaseMs).errorCode == OWNER_LOST
    ensures op.Heartbeat? ==> !Redis.Beaten(hash, op.instance, now, now + leaseMs).1
  {
    hide TerminalReceipt;
  }

  lemma {:induction false} RedisStaysDead(hashes: Redis.Hashes, trace: seq<Timed>, leaseMs: int, id: string, since: int)
    requires ValidTrace(trace) && id in hashes && DeadHash(hashes[id], since)
    requires forall k :: 0 <= k < |trace| ==> since <= trace[k].now
    ensures id in RedisFinal(hashes, trace, leaseMs) && DeadHash(RedisFinal(hashes, trace, leaseMs)[id], since)
  {
    hide Redis.After, DeadHash;
    if trace != [] {
      var last := |trace| - 1;
      RedisStaysDead(hashes, trace[..last], leaseMs, id, since);
      var before := RedisFinal(hashes, trace[..last], leaseMs);
      if trace[last].op.id == id {
        DeadHashStep(before[id], trace[last].op, trace[last].now, leaseMs, since);
      }
    }
  }

  /** In the Redis store too a lapsed lease is never revived, and every later answer but one to a cancel says so. */
  lemma RedisLapsedForever(hashes: Redis.Hashes, trace: seq<Timed>, leaseMs: int, id: string, since: int, i: nat)
    requires ValidTrace(trace) && id in hashes && id != "" && DeadHash(hashes[id], since)
    requires forall k :: 0 <= k < |trace| ==> since <= trace[k].now
    requires i < |trace| && trace[i].op.id == id
    ensures var reply := Redis.Answer(RedisFinal(hashes, trace[..i], leaseMs), trace[i].op, trace[i].now, leaseMs);
            && (trace[i].op.Heartbeat? ==> reply == Beat(false))
            && (trace[i].op.CreateOrGet? || trace[i].op.Get? || trace[i].op.MarkRunning? || trace[i].op.Complete?
                ==> ReplyStatus(reply) == Some(Failed))
  {
    hide Redis.After, DeadHash, RedisFinal;
    RedisStaysDead(hashes, trace[..i], leaseMs, id, since);
    DeadHashStep(RedisFinal(hashes, trace[..i], leaseMs)[id], trace[i].op, trace[i].now, leaseMs, since);
  }
}

/** What every run of the stores guarantees, and how the two stores agree. */
module RunProtocol {
  import opened Wrappers
  import opened RunStore
  import Memory = MemoryRunStore
  import Redis = RedisRunStore

  /** The memory store after a whole trace. */
  function Final(runs: Runs, trace: seq<Timed>, leaseMs: int): Runs
    requires ValidTrace(trace)
  {
    if trace == [] then runs
    else
      var last := |trace| - 1;
      Memory.Next(Final(runs, trace[..last], leaseMs), trace[last].op, trace[last].now, leaseMs)
  }

  /** The reply to the operation at position `i` of the trace. */
  function ReplyAt(runs: Runs, trace: seq<Timed>, leaseMs: int, i: nat): Reply
    requires ValidTrace(trace) && i < |trace|
  {
    Memory.Answer(Final(runs, trace[..i], leaseMs), trace[i].op, trace[i].now, leaseMs)
  }

  // ----- one step -----

  /** A record stays, keeps its owner and its input, and once terminal never changes. */
  lemma StepKeeps(runs: Runs, op: Op, now: int, leaseMs: int, id: string)
    requires ValidOp(op) && id in runs
    ensures var after := Memory.Next(runs, op, now, leaseMs);
            && id in after && after[id].owner == runs[id].owner && after[id].inputHash == runs[id].inputHash
            && (IsTerminal(runs[id].status) ==> after[id] == runs[id])
            && (runs[id].cancelRequested ==> after[id].cancelRequested)
  {
  }

  /**
   * Only a completion by the owner under a live lease ends a run as succeeded or cancelled, and never as succeeded
   * once cancelled.
   */
  lemma StepEnds(runs: Runs, op: Op, now: int, leaseMs: int, id: string)
    requires ValidOp(op) && id in runs && !IsTerminal(runs[id].status)
    ensures var after := Memory.Next(runs, op, now, leaseMs)[id];
            && (after.status == Succeeded || after.status == Cancelled ==>
                  op.Complete? && op.id == id && op.instance == runs[id].owner && runs[id].leaseExpiresAt > now)
            && (after.status == Succeeded ==> !runs[id].cancelRequested)
  {
  }

  // ----- whole runs of the memory store -----

  lemma {:induction false} FinalKeeps(runs: Runs, trace: seq<Timed>, leaseMs: int, id: string)
    requires ValidTrace(trace) && id in runs
    ensures id in Final(runs, trace, leaseMs)
    ensures Final(runs, trace, leaseMs)[id].owner == runs[id].owner
    ensures runs[id].cancelRequested ==> Final(runs, trace, leaseMs)[id].cancelRequested
    ensures IsTerminal(runs[id].status) ==> Final(runs, trace, leaseMs)[id] == runs[id]
  {
    if trace != [] {
      var last := |trace| - 1;
      FinalKeeps(runs, trace[..last], leaseMs, id);
      StepKeeps(Final(runs, trace[..last], leaseMs), trace[last].op, trace[last].now, leaseMs, id);
    }
  }

  /** The state between two positions of a trace is reached by the part between them. */
  lemma {:induction false} FinalSplit(runs: Runs, trace: seq<Timed>, leaseMs: int, i: nat)
    requires ValidTrace(trace) && i <= |trace|
    ensures Final(runs, trace, leaseMs) == Final(Final(runs, trace[..i], leaseMs), trace[i..], leaseMs)
    decreases |trace|
  {
    if i == |trace| {
      assert trace[..i] == trace;
    } else {
      var last := |trace| - 1;
      FinalSplit(runs, trace[..last], leaseMs, i);
      assert trace[..last][..i] == trace[..i] && trace[..last][i..] == trace[i..][..last - i];
      assert trace[i..][last - i] == trace[last];
    }
  }

  /** A terminal record is final: whatever runs later, in any order and at any time, leaves it alone. */
  lemma TerminalForever(trace: seq<Timed>, leaseMs: int, i: nat, id: string)
    requires ValidTrace(trace) && i <= |trace|
    requires var before := Final(map[], trace[..i], leaseMs); id in before && IsTerminal(before[id].status)
    ensures id in Final(map[], trace, leaseMs)
    ensures Final(map[], trace, leaseMs)[id] == Final(map[], trace[..i], leaseMs)[id]
  {
    FinalSplit(map[], trace, leaseMs, i);
    FinalKeeps(Final(map[], trace[..i], leaseMs), trace[i..], leaseMs, id);
  }

  /** Over a whole run each id is answered "created" at most once. */
  lemma CreatedOnce(trace: seq<Timed>, leaseMs: int, i: nat, j: nat)
    requires ValidTrace(trace) && i < j < |trace|
    requires trace[i].op.CreateOrGet? && trace[j].op.CreateOrGet? && trace[i].op.id == trace[j].op.id
    requires ReplyAt(map[], trace, leaseMs, i).Created?
    ensures !ReplyAt(map[], trace, leaseMs, j).Created?
  {
    var id, part := trace[i].op.id, trace[..j];
    assert part[..i + 1][..i] == trace[..i] && part[..i + 1][i] == trace[i];
    FinalSplit(map[], part, leaseMs, i + 1);
    FinalKeeps(Final(map[], part[..i + 1], leaseMs), part[i + 1..], leaseMs, id);
  }

  /** After an accepted cancel request the run is never reported as succeeded. */
  lemma {:induction false} CancelledNeverSucceeds(runs: Runs, trace: seq<Timed>, leaseMs: int, id: string)
    requires ValidTrace(trace) && id in runs && !IsTerminal(runs[id].status) && runs[id].cancelRequested
    ensures id in Final(runs, trace, leaseMs) && Final(runs, trace, leaseMs)[id].status != Succeeded
  {
    FinalKeeps(runs, trace, leaseMs, id);
    if trace != [] {
      var last := |trace| - 1;
      CancelledNeverSucceeds(runs, trace[..last], leaseMs, id);
      FinalKeeps(runs, trace[..last], leaseMs, id);
      var before := Final(runs, trace[..last], leaseMs);
      StepKeeps(before, trace[last].op, trace[last].now, leaseMs, id);
      if !IsTerminal(before[id].status) {
        StepEnds(before, trace[last].op, trace[last].now, leaseMs, id);
      }
    }
  }

  /** Cancel wins, over whole runs: an accepted request decides every later state. */
  lemma CancelWins(trace: seq<Timed>, leaseMs: int, i: nat)
    requires ValidTrace(trace) && i < |trace| && trace[i].op.RequestCancel?
    requires ReplyAt(map[], trace, leaseMs, i).CancelAccepted?
    ensures var id := trace[i].op.id;
            id in Final(map[], trace, leaseMs) && Final(map[], trace, leaseMs)[id].status != Succeeded
  {
    var id := trace[i].op.id;
    assert trace[..i + 1][..i] == trace[..i] && trace[..i + 1][i] == trace[i];
    FinalSplit(map[], trace, leaseMs, i + 1);
    CancelledNeverSucceeds(Final(map[], trace[..i + 1], leaseMs), trace[i + 1..], leaseMs, id);
  }

  /** The position at which the owner, under a live lease, completed the run. */
  ghost predicate CompletedByOwner(runs: Runs, trace: seq<Timed>, leaseMs: int, id: string, i: nat)
    requires ValidTrace(trace)
  {
    && i < |trace| && trace[i].op.Complete? && trace[i].op.id == id
    && var before := Final(runs, trace[..i], leaseMs);
       id in before && !IsTerminal(before[id].status)
       && trace[i].op.instance == before[id].owner && before[id].leaseExpiresAt > trace[i].now
  }

  /** A run that ends succeeded or cancelled was completed by its owner while the lease was live. */
  lemma {:induction false} OnlyLiveOwnerEnds(runs: Runs, trace: seq<Timed>, leaseMs: int, id: string)
    requires ValidTrace(trace) && id in runs && !IsTerminal(runs[id].status)
    requires id in Final(runs, trace, leaseMs)
    requires Final(runs, trace, leaseMs)[id].status == Succeeded || Final(runs, trace, leaseMs)[id].status == Cancelled
    ensures exists i: nat :: CompletedByOwner(runs, trace, leaseMs, id, i)
  {
    var last := |trace| - 1;
    FinalKeeps(runs, trace[..last], leaseMs, id);
    var before := Final(runs, trace[..last], leaseMs);
    if IsTerminal(before[id].status) {
      StepKeeps(before, trace[last].op, trace[last].now, leaseMs, id);
      OnlyLiveOwnerEnds(runs, trace[..last], leaseMs, id);
      var i: nat :| CompletedByOwner(runs, trace[..last], leaseMs, id, i);
      assert trace[..last][..i] == trace[..i];
      assert CompletedByOwner(runs, trace, leaseMs, id, i);
    } else {
      StepEnds(before, trace[last].op, trace[last].now, leaseMs, id);
      assert CompletedByOwner(runs, trace, leaseMs, id, last);
    }
  }

  /** The lease ran out by `since`, whether or not the record says so yet. */
  predicate Dead(record: RunRecord, since: int) {
    || Lapsed(record, since)
    || (record.status == Failed && record.errorCode == Some(OWNER_LOST))
  }

  function OwnerLostReply(reply: Reply): bool {
    reply.Record? && reply.found.Some? && reply.found.value.status == Failed
    && reply.found.value.errorCode == Some(OWNER_LOST)
  }

  lemma DeadRecord(record: RunRecord, op: Op, now: int, leaseMs: int, since: int)
    requires ValidOp(op) && since <= now && Dead(record, since)
    ensures var after := Memory.After(record, op, now, leaseMs);
            && Dead(after, since)
            && (op.Get? || op.MarkRunning? ==> after.status == Failed && after.errorCode == Some(OWNER_LOST))
            && (op.Heartbeat? ==> IsTerminal(after.status))
  {
  }

  lemma DeadStep(runs: Runs, op: Op, now: int, leaseMs: int, id: string, since: int)
    requires ValidOp(op) && since <= now && id in runs && Dead(runs[id], since)
    ensures id in Memory.Next(runs, op, now, leaseMs) && Dead(Memory.Next(runs, op, now, leaseMs)[id], since)
    ensures (op.Get? || op.MarkRunning?) && op.id == id ==> OwnerLostReply(Memory.Answer(runs, op, now, leaseMs))
    ensures op.Heartbeat? && op.id == id ==> Memory.Answer(runs, op, now, leaseMs) == Beat(false)
  {
    hide Memory.After, Dead;
    if op.id == id {
      DeadRecord(runs[id], op, now, leaseMs, since);
    }
  }

  lemma {:induction false} LapsedStaysDead(runs: Runs, trace: seq<Timed>, leaseMs: int, id: string, since: int)
    requires ValidTrace(trace) && id in runs && Lapsed(runs[id], since)
    requires forall i :: 0 <= i < |trace| ==> since <= trace[i].now
    ensures id in Final(runs, trace, leaseMs) && Dead(Final(runs, trace, leaseMs)[id], since)
  {
    hide Memory.Next;
    if trace != [] {
      var last := |trace| - 1;
      LapsedStaysDead(runs, trace[..last], leaseMs, id, since);
      DeadStep(Final(runs, trace[..last], leaseMs), trace[last].op, trace[last].now, leaseMs, id, since);
    }
  }

  /**
   * A lapsed lease is never revived: no later heartbeat is answered, and every later read, mark-running
   * included, reports the run as failed with its owner lost.
   */
  lemma LapsedForever(runs: Runs, trace: seq<Timed>, leaseMs: int, id: string, since: int, i: nat)
    requires ValidTrace(trace) && id in runs && Lapsed(runs[id], since)
    requires forall k :: 0 <= k < |trace| ==> since <= trace[k].now
    requires i < |trace| && trace[i].op.id == id
    ensures trace[i].op.Get? || trace[i].op.MarkRunning? ==> OwnerLostReply(ReplyAt(runs, trace, leaseMs, i))
    ensures trace[i].op.Heartbeat? ==> ReplyAt(runs, trace, leaseMs, i) == Beat(false)
    ensures id in Final(runs, trace, leaseMs) && Dead(Final(runs, trace, leaseMs)[id], since)
  {
    hide Memory.Next, Memory.Answer;
    LapsedStaysDead(runs, trace[..i], leaseMs, id, since);
    DeadStep(Final(runs, trace[..i], leaseMs), trace[i].op, trace[i].now, leaseMs, id, since);
    LapsedStaysDead(runs, trace, leaseMs, id, since);
  }

  // ----- receipts -----

  /**
   * What the server writes: runs start without an ending, and a completion carries a closed receipt of its own status.
   */
  predicate Sound(op: Op) {
    match op
    case CreateOrGet(_, record) => !IsTerminal(record.status) && Numbered(Events(record.receipt))
    case Complete(_, _, status, receipt, _) => IsTerminal(status) && receipt.status == status && Closed(receipt)
    case _ => true
  }

  predicate ReceiptMatches(record: RunRecord) {
    if IsTerminal(record.status)
    then record.receipt.Some? && record.receipt.value.status == record.status && Closed(record.receipt.value)
    else Numbered(Events(record.receipt))
  }

  lemma ReceiptStep(record: RunRecord, op: Op, now: int, leaseMs: int)
    requires Sound(op) && ReceiptMatches(record)
    ensures ReceiptMatches(Memory.After(record, op, now, leaseMs))
  {
    hide TerminalReceipt, Closed, Numbered;
    if !IsTerminal(record.status) {
      TerminalReceiptClosed(Failed, Some(OWNER_LOST), record.receipt);
    }
    if op.Complete? {
      ClosedIsNumbered(op.receipt);
      TerminalReceiptClosed(Failed, Some(OWNER_LOST), Some(op.receipt));
      TerminalReceiptClosed(Cancelled, None, Some(op.receipt));
    }
  }

  lemma ClosedIsNumbered(receipt: Receipt)
    requires Closed(receipt)
    ensures Numbered(receipt.events)
  {
  }

  lemma ExpiredReceipt(hash: Redis.Hash, now: int)
    requires ReceiptMatches(Redis.Deserialize(hash))
    ensures ReceiptMatches(Redis.Deserialize(Redis.Expired(hash, now)))
  {
    assert Closed(Redis.OWNER_LOST_RECEIPT);
    hide TerminalReceipt, Closed, Numbered;
  }

  lemma CompletedReceipt(hash: Redis.Hash, op: Op, now: int)
    requires op.Complete? && Sound(op) && ValidOp(op) && ReceiptMatches(Redis.Deserialize(hash))
    ensures ReceiptMatches(Redis.Deserialize(Redis.Completed(hash, now, op.instance, op.status, op.receipt, op.code)))
  {
    assert Closed(Redis.OWNER_LOST_RECEIPT);
    hide TerminalReceipt, Closed, Numbered;
    if IsTerminal(hash.status) || hash.owner != op.instance {
    } else if hash.leaseExpiresAt <= now {
      TerminalReceiptClosed(Failed, Some(OWNER_LOST), Some(op.receipt));
    } else if hash.cancelRequested == "1" && op.status == Succeeded {
      TerminalReceiptClosed(Cancelled, None, Some(op.receipt));
    }
  }

  lemma RedisReceiptStep(hash: Redis.Hash, op: Op, now: int, leaseMs: int)
    requires Sound(op) && ReceiptMatches(Redis.Deserialize(hash))
    ensures ReceiptMatches(Redis.Deserialize(Redis.After(hash, op, now, leaseMs)))
  {
    assert Closed(Redis.OWNER_LOST_RECEIPT);
    hide TerminalReceipt, Closed, Numbered, Redis.Expired, Redis.Completed;
    match op
    case CreateOrGet(_, _) => ExpiredReceipt(hash, now);
    case Get(_) => ExpiredReceipt(hash, now);
    case MarkRunning(_) => ExpiredReceipt(Redis.Marked(hash, now, now + leaseMs), now);
    case Complete(_, instance, status, receipt, code) =>
      CompletedReceipt(hash, op, now);
      ExpiredReceipt(Redis.Completed(hash, now, instance, status, receipt, code), now);
    case _ =>
  }

  lemma RedisReceiptStart(record: RunRecord, now: int)
    requires !IsTerminal(record.status) && Numbered(Events(record.receipt))
    ensures ReceiptMatches(Redis.Deserialize(Redis.Expired(Redis.Serialize(record), now)))
  {
  }

  /** In every reachable state of either store an ended run has a numbered receipt that ends as its status says. */
  lemma {:induction false} ReceiptsMatch(trace: seq<Timed>, leaseMs: int, id: string)
    requires ValidTrace(trace) && forall i :: 0 <= i < |trace| ==> Sound(trace[i].op)
    ensures id in Final(map[], trace, leaseMs) ==> ReceiptMatches(Final(map[], trace, leaseMs)[id])
    ensures id in RedisFinal(map[], trace, leaseMs) ==>
              ReceiptMatches(Redis.Deserialize(RedisFinal(map[], trace, leaseMs)[id]))
  {
    hide Memory.After, Redis.After, Redis.Expired, Redis.Deserialize, Redis.Serialize, ReceiptMatches;
    if trace != [] {
      var last := |trace| - 1;
      ReceiptsMatch(trace[..last], leaseMs, id);
      var op, now := trace[last].op, trace[last].now;
      assert Sound(op);
      var runs, hashes := Final(map[], trace[..last], leaseMs), RedisFinal(map[], trace[..last], leaseMs);
      if op.id == id {
        if id in runs { ReceiptStep(runs[id], op, now, leaseMs); }
        if id in hashes { RedisReceiptStep(hashes[id], op, now, leaseMs); }
        if op.CreateOrGet? {
          RedisReceiptStart(op.record, now);
          FreshReceipt(op.record);
        }
      }
    }
  }

  lemma FreshReceipt(record: RunRecord)
    requires !IsTerminal(record.status) && Numbered(Events(record.receipt))
    ensures ReceiptMatches(record)
  {
  }

  // ----- the Redis store simulates the memory store -----

  function RedisFinal(hashes: Redis.Hashes, trace: seq<Timed>, leaseMs: int): Redis.Hashes
    requires ValidTrace(trace)
  {
    if trace == [] then hashes
    else
      var last := |trace| - 1;
      Redis.Next(RedisFinal(hashes, trace[..last], leaseMs), trace[last].op, trace[last].now, leaseMs)
  }

  /** Equal as seen at `now`: the same effective status, and the same lease data as long as the run is live. */
  predicate Alike(memory: RunRecord, redis: RunRecord, now: int) {
    && memory.inputHash == redis.inputHash && memory.owner == redis.owner
    && EffectiveStatus(memory, now) == EffectiveStatus(redis, now)
    && (!IsTerminal(EffectiveStatus(memory, now)) ==>
          && memory.status == redis.status
          && memory.cancelRequested == redis.cancelRequested && memory.leaseExpiresAt == redis.leaseExpiresAt)
  }

  predicate Simulates(runs: Runs, hashes: Redis.Hashes, now: int) {
    runs.Keys == hashes.Keys && forall id :: id in runs ==> Alike(runs[id], Redis.Deserialize(hashes[id]), now)
  }

  lemma AlikeStep(memory: RunRecord, redis: Redis.Hash, op: Op, before: int, now: int, leaseMs: int)
    requires ValidOp(op) && before <= now && Alike(memory, Redis.Deserialize(redis), before)
    ensures Alike(Memory.After(memory, op, now, leaseMs), Redis.Deserialize(Redis.After(redis, op, now, leaseMs)), now)
  {
    hide TerminalReceipt;
  }

  lemma AlikeStart(record: RunRecord, now: int)
    ensures Alike(record, Redis.Deserialize(Redis.Expired(Redis.Serialize(record), now)), now)
  {
  }

  lemma AlikeLater(memory: RunRecord, redis: RunRecord, before: int, now: int)
    requires Alike(memory, redis, before) && before <= now
    ensures Alike(memory, redis, now)
  {
  }

  lemma SimulationStep(runs: Runs, hashes: Redis.Hashes, op: Op, before: int, now: int, leaseMs: int)
    requires ValidOp(op) && before <= now && Simulates(runs, hashes, before)
    ensures Simulates(Memory.Next(runs, op, now, leaseMs), Redis.Next(hashes, op, now, leaseMs), now)
  {
    hide Memory.After, Redis.After, Redis.Expired, Redis.Deserialize, Redis.Serialize, Alike;
    var after, afterRedis := Memory.Next(runs, op, now, leaseMs), Redis.Next(hashes, op, now, leaseMs);
    forall id | id in after ensures id in afterRedis && Alike(after[id], Redis.Deserialize(afterRedis[id]), now) {
      if id in runs {
        assert Alike(runs[id], Redis.Deserialize(hashes[id]), before);
        if id == op.id {
          AlikeStep(runs[id], hashes[id], op, before, now, leaseMs);
        } else {
          AlikeLater(runs[id], Redis.Deserialize(hashes[id]), before, now);
        }
      } else {
        AlikeStart(op.record, now);
      }
    }
  }

  function LastTime(start: int, trace: seq<Timed>): int {
    if trace == [] then start else trace[|trace| - 1].now
  }

  lemma {:induction false} Simulation(start: int, trace: seq<Timed>, leaseMs: int)
    requires ValidTrace(trace) && ClockFrom(start, trace)
    ensures Simulates(Final(map[], trace, leaseMs), RedisFinal(map[], trace, leaseMs), LastTime(start, trace))
  {
    if trace != [] {
      var last := |trace| - 1;
      Simulation(start, trace[..last], leaseMs);
      SimulationStep(Final(map[], trace[..last], leaseMs), RedisFinal(map[], trace[..last], leaseMs),
                     trace[last].op, LastTime(start, trace[..last]), trace[last].now, leaseMs);
    }
  }
}

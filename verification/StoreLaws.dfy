/** What the stores keep of a run: its creation, its receipt once it is completed, and its lease once it is renewed. */
module StoreLaws {
  import opened RunProtocol
  import opened RunStore
  import opened StoreAgreement
  import opened Wrappers
  import Memory = MemoryRunStore
  import Redis = RedisRunStore

  predicate Unfinished(status: RunStatus) {
    status == Queued || status == Running
  }

  // ----- receipts -----

  /** A receipt for a run without a result of its own: the earlier events, and the one that says how the run ended. */
  predicate ClosesAfter(receipt: Receipt, status: RunStatus, errorCode: Option<string>, mark: EventType,
                        earlier: seq<TraceEvent>)
  {
    && receipt.status == status && receipt.errorCode == errorCode && !receipt.hasResult
    && receipt.events == if earlier != [] && earlier[|earlier| - 1].eventType == mark then earlier
                         else earlier + [TraceEvent(|earlier| + 1, mark)]
  }

  /**
   * What is on record after the owner has completed a run: the receipt just as it was given, unless the lease had
   * lapsed or a success was overridden by a cancel; then its events come first.
   */
  predicate Keeps(record: RunRecord, op: Op, live: bool, cancelled: bool, code: Option<string>)
    requires op.Complete?
  {
    if !live then
      && record.status == Failed && record.errorCode == Some("owner_instance_lost") && record.receipt.Some?
      && ClosesAfter(record.receipt.value, Failed, Some("owner_instance_lost"), RunFailed, op.receipt.events)
    else if cancelled && op.status == Succeeded then
      && record.status == Cancelled && record.errorCode == None && record.receipt.Some?
      && ClosesAfter(record.receipt.value, Cancelled, None, RunCancelled, op.receipt.events)
    else record.status == op.status && record.errorCode == code && record.receipt == Some(op.receipt)
  }

  /** Over whole runs: once the owner has completed an unfinished run, every later read answers what `Keeps` says. */
  lemma ReceiptKept(trace: seq<Timed>, leaseMs: int, i: nat, j: nat)
    requires ValidTrace(trace) && i < j < |trace| && trace[i].op.Complete? && trace[j].op == Get(trace[i].op.id)
    requires var before := Final(map[], trace[..i], leaseMs);
             && trace[i].op.id in before && Unfinished(before[trace[i].op.id].status)
             && before[trace[i].op.id].owner == trace[i].op.instance
    ensures var before := Final(map[], trace[..i], leaseMs)[trace[i].op.id];
            var reply := ReplyAt(map[], trace, leaseMs, j);
            && reply.Record? && reply.found.Some?
            && Keeps(reply.found.value, trace[i].op, trace[i].now < before.leaseExpiresAt, before.cancelRequested,
                     trace[i].op.receipt.errorCode)
  {
    var id, part := trace[i].op.id, trace[..j];
    assert part[..i + 1][..i] == trace[..i] && part[..i + 1][i] == trace[i];
    assert IsTerminal(Final(map[], part[..i + 1], leaseMs)[id].status);
    TerminalForever(part, leaseMs, i + 1, id);
  }

  lemma RedisStepKeeps(hash: Redis.Hash, op: Op, now: int, leaseMs: int)
    requires ValidOp(op) && IsTerminal(hash.status)
    ensures Redis.After(hash, op, now, leaseMs) == hash
  {
    hide TerminalReceipt;
  }

  /** A terminal hash is final too. */
  lemma {:induction false} RedisTerminalForever(trace: seq<Timed>, leaseMs: int, i: nat, id: string)
    requires ValidTrace(trace) && i <= |trace|
    requires var before := RedisFinal(map[], trace[..i], leaseMs); id in before && IsTerminal(before[id].status)
    ensures var after := RedisFinal(map[], trace, leaseMs);
            id in after && after[id] == RedisFinal(map[], trace[..i], leaseMs)[id]
    decreases |trace|
  {
    hide Redis.After;
    if i == |trace| {
      assert trace[..i] == trace;
    } else {
      var last := |trace| - 1;
      assert trace[..last][..i] == trace[..i];
      RedisTerminalForever(trace[..last], leaseMs, i, id);
      RedisStepKeeps(RedisFinal(map[], trace[..last], leaseMs)[id], trace[last].op, trace[last].now, leaseMs);
    }
  }

  lemma CompletedKeeps(hash: Redis.Hash, op: Op, now: int, leaseMs: int)
    requires ValidOp(op) && op.Complete? && Unfinished(hash.status) && hash.owner == op.instance
    ensures var after := Redis.After(hash, op, now, leaseMs);
            && IsTerminal(after.status)
            && Keeps(Redis.Deserialize(after), op, now < hash.leaseExpiresAt, hash.cancelRequested == "1",
                     if op.code == Some("") then None else op.code)
  {
  }

  /** The Redis store keeps the receipt in the same way, and the error code it is given instead of the receipt's. */
  lemma RedisReceiptKept(trace: seq<Timed>, leaseMs: int, i: nat, j: nat)
    requires ValidTrace(trace) && i < j < |trace| && trace[i].op.Complete? && trace[j].op == Get(trace[i].op.id)
    requires var before := RedisFinal(map[], trace[..i], leaseMs);
             && trace[i].op.id in before && trace[i].op.id != "" && Unfinished(before[trace[i].op.id].status)
             && before[trace[i].op.id].owner == trace[i].op.instance
    ensures var before := RedisFinal(map[], trace[..i], leaseMs)[trace[i].op.id];
            var reply := RedisReplyAt(trace, leaseMs, j);
            && reply.Record? && reply.found.Some?
            && Keeps(reply.found.value, trace[i].op, trace[i].now < before.leaseExpiresAt,
                     before.cancelRequested == "1", if trace[i].op.code == Some("") then None else trace[i].op.code)
  {
    hide Redis.After, Keeps, Redis.Deserialize;
    var id, part, op := trace[i].op.id, trace[..j], trace[i].op;
    var before := RedisFinal(map[], trace[..i], leaseMs);
    assert part[..i + 1][..i] == trace[..i] && part[..i + 1][i] == trace[i];
    CompletedKeeps(before[id], op, trace[i].now, leaseMs);
    RedisTerminalForever(part, leaseMs, i + 1, id);
    RedisStepKeeps(RedisFinal(map[], part, leaseMs)[id], trace[j].op, trace[j].now, leaseMs);
  }

  // ----- leases -----

  /** A heartbeat or mark-running that was answered: the run goes on, with a new lease. */
  predicate Renews(op: Op, reply: Reply, id: string) {
    && op.id == id
    && ((op.Heartbeat? && reply == Beat(true))
        || (op.MarkRunning? && reply.Record? && reply.found.Some? && reply.found.value.status == Running))
  }

  /** The operation neither renews nor ends the run. */
  predicate LeavesLease(op: Op, id: string, owner: string) {
    op.id == id ==> !op.MarkRunning? && (op.Heartbeat? || op.Complete? ==> op.instance != owner)
  }

  /** The run has its lease until then, or has been found lost since. */
  predicate LeasedUntil(runs: Runs, id: string, owner: string, until: int, now: int) {
    && id in runs && runs[id].owner == owner
    && (if IsTerminal(runs[id].status) then until <= now else runs[id].leaseExpiresAt == until)
  }

  lemma LeaseStep(runs: Runs, op: Op, now: int, leaseMs: int, id: string, owner: string, until: int, before: int)
    requires ValidOp(op) && before <= now && LeasedUntil(runs, id, owner, until, before)
    requires LeavesLease(op, id, owner)
    ensures LeasedUntil(Memory.Next(runs, op, now, leaseMs), id, owner, until, now)
  {
    hide TerminalReceipt;
  }

  lemma {:induction false} LeaseStays(runs: Runs, trace: seq<Timed>, leaseMs: int, id: string, owner: string,
                                      until: int, start: int)
    requires ValidTrace(trace) && ClockFrom(start, trace) && LeasedUntil(runs, id, owner, until, start)
    requires forall k :: 0 <= k < |trace| ==> LeavesLease(trace[k].op, id, owner)
    ensures LeasedUntil(Final(runs, trace, leaseMs), id, owner, until, LastTime(start, trace))
  {
    hide Memory.Next, LeasedUntil, LeavesLease;
    if trace != [] {
      var last := |trace| - 1;
      PrefixClock(start, trace, last);
      LeaseStays(runs, trace[..last], leaseMs, id, owner, until, start);
      LeaseStep(Final(runs, trace[..last], leaseMs), trace[last].op, trace[last].now, leaseMs, id, owner, until,
                LastTime(start, trace[..last]));
    }
  }

  /** The owner's call at position `j` is the next that could renew the lease which the one at `i` left. */
  predicate NextOfOwner(trace: seq<Timed>, i: nat, j: nat, id: string, owner: string) {
    && i < j < |trace| && trace[j].op.id == id
    && (trace[j].op.MarkRunning? || (trace[j].op.Heartbeat? && trace[j].op.instance == owner))
    && forall k :: i < k < j ==> LeavesLease(trace[k].op, id, owner)
  }

  /** Both stores answer the call as one for a run with a live lease, or both as one for a lost run. */
  predicate AnsweredInTime(op: Op, memory: Reply, redis: Reply, inTime: bool, leaseMs: int) {
    if op.Heartbeat? then memory == redis == Beat(inTime)
    else
      && ReplyStatus(memory) == Some(if inTime then Running else Failed)
      && (leaseMs > 0 && op.id != "" ==> ReplyStatus(redis) == ReplyStatus(memory))
  }

  lemma LeaseLasts(start: int, trace: seq<Timed>, leaseMs: int, i: nat, j: nat, id: string, owner: string, until: int)
    requires ValidTrace(trace) && ClockFrom(start, trace) && NextOfOwner(trace, i, j, id, owner)
    requires LeasedUntil(Final(map[], trace[..i + 1], leaseMs), id, owner, until, trace[i].now)
    requires !IsTerminal(Final(map[], trace[..i + 1], leaseMs)[id].status)
    ensures AnsweredInTime(trace[j].op, ReplyAt(map[], trace, leaseMs, j), RedisReplyAt(trace, leaseMs, j),
                           trace[j].now < until, leaseMs)
  {
    hide Final, LeavesLease, TerminalReceipt, RedisFinal, Redis.Answer;
    var part, now := trace[..j], trace[j].now;
    assert part[..i + 1] == trace[..i + 1];
    assert ClockFrom(trace[i].now, part[i + 1..]);
    FinalSplit(map[], part, leaseMs, i + 1);
    LeaseStays(Final(map[], part[..i + 1], leaseMs), part[i + 1..], leaseMs, id, owner, until, trace[i].now);
    LostStays(Final(map[], part[..i + 1], leaseMs), part[i + 1..], leaseMs, id, owner);
    PrefixClock(start, trace, j);
    if trace[j].op.Heartbeat? {
      SameControlReplies(start, part, leaseMs, trace[j].op, now);
    } else if leaseMs > 0 && id != "" {
      AnswersPartExactly(start, part, leaseMs, trace[j].op, now);
    }
  }

  /** Without a call of its owner's an unfinished run ends only as failed. */
  lemma {:induction false} LostStays(runs: Runs, trace: seq<Timed>, leaseMs: int, id: string, owner: string)
    requires ValidTrace(trace) && id in runs && runs[id].owner == owner && !IsTerminal(runs[id].status)
    requires forall k :: 0 <= k < |trace| ==> LeavesLease(trace[k].op, id, owner)
    ensures var after := Final(runs, trace, leaseMs);
            && id in after && after[id].owner == owner
            && (IsTerminal(after[id].status) ==> after[id].status == Failed)
  {
    hide TerminalReceipt;
    if trace != [] {
      LostStays(runs, trace[..|trace| - 1], leaseMs, id, owner);
    }
  }

  /**
   * A renewed lease lasts exactly `leaseMs`: the next heartbeat of the owner, or mark-running, is answered if and
   * only if it comes before that, whatever is read, cancelled, created or tried by others in between.
   */
  lemma RenewalLasts(start: int, trace: seq<Timed>, leaseMs: int, i: nat, j: nat, id: string, owner: string)
    requires ValidTrace(trace) && ClockFrom(start, trace) && NextOfOwner(trace, i, j, id, owner)
    requires Renews(trace[i].op, ReplyAt(map[], trace, leaseMs, i), id)
    requires Final(map[], trace[..i], leaseMs)[id].owner == owner
    ensures AnsweredInTime(trace[j].op, ReplyAt(map[], trace, leaseMs, j), RedisReplyAt(trace, leaseMs, j),
                           trace[j].now < trace[i].now + leaseMs, leaseMs)
  {
    hide Final, TerminalReceipt, RedisFinal, Redis.Answer, AnsweredInTime;
    RenewedAt(trace, leaseMs, i, id);
    LeaseLasts(start, trace, leaseMs, i, j, id, owner, trace[i].now + leaseMs);
  }

  /** The first lease is the one that the run was created with. */
  lemma FirstLeaseLasts(start: int, trace: seq<Timed>, leaseMs: int, i: nat, j: nat)
    requires ValidTrace(trace) && ClockFrom(start, trace) && i < |trace| && trace[i].op.CreateOrGet?
    requires ReplyAt(map[], trace, leaseMs, i).Created? && Unfinished(trace[i].op.record.status)
    requires NextOfOwner(trace, i, j, trace[i].op.id, trace[i].op.record.owner)
    ensures AnsweredInTime(trace[j].op, ReplyAt(map[], trace, leaseMs, j), RedisReplyAt(trace, leaseMs, j),
                           trace[j].now < trace[i].op.record.leaseExpiresAt, leaseMs)
  {
    hide Final, TerminalReceipt, RedisFinal, Redis.Answer, AnsweredInTime;
    CreatedAt(trace, leaseMs, i);
    var record := trace[i].op.record;
    LeaseLasts(start, trace, leaseMs, i, j, trace[i].op.id, record.owner, record.leaseExpiresAt);
  }

  lemma RenewedAt(trace: seq<Timed>, leaseMs: int, i: nat, id: string)
    requires ValidTrace(trace) && i < |trace| && Renews(trace[i].op, ReplyAt(map[], trace, leaseMs, i), id)
    ensures id in Final(map[], trace[..i], leaseMs)
    ensures var owner := Final(map[], trace[..i], leaseMs)[id].owner;
            && LeasedUntil(Final(map[], trace[..i + 1], leaseMs), id, owner, trace[i].now + leaseMs, trace[i].now)
            && !IsTerminal(Final(map[], trace[..i + 1], leaseMs)[id].status)
  {
    hide TerminalReceipt;
    assert trace[..i + 1][..i] == trace[..i] && trace[..i + 1][i] == trace[i];
  }

  // ----- creation -----

  lemma {:induction false} IdentityKept(runs: Runs, trace: seq<Timed>, leaseMs: int, id: string)
    requires ValidTrace(trace) && id in runs
    ensures var after := Final(runs, trace, leaseMs);
            id in after && after[id].inputHash == runs[id].inputHash && after[id].owner == runs[id].owner
  {
    hide Memory.After;
    if trace != [] {
      var last := |trace| - 1;
      IdentityKept(runs, trace[..last], leaseMs, id);
      StepKeeps(Final(runs, trace[..last], leaseMs), trace[last].op, trace[last].now, leaseMs, id);
    }
  }

  /**
   * Once a run is created, every later create under its id finds it: as existing if and only if the input is the
   * same. And an accepted cancel names the owner that created it. In both stores.
   */
  lemma CreationRemembered(start: int, trace: seq<Timed>, leaseMs: int, i: nat, j: nat)
    requires ValidTrace(trace) && ClockFrom(start, trace) && i < j < |trace| && trace[i].op.CreateOrGet?
    requires ReplyAt(map[], trace, leaseMs, i).Created? && trace[j].op.id == trace[i].op.id != ""
    ensures var first, memory, redis :=
              trace[i].op.record, ReplyAt(map[], trace, leaseMs, j), RedisReplyAt(trace, leaseMs, j);
            && (trace[j].op.CreateOrGet? ==>
                  && (memory.Existing? <==> trace[j].op.record.inputHash == first.inputHash)
                  && (memory.Conflict? <==> trace[j].op.record.inputHash != first.inputHash)
                  && memory.run.inputHash == first.inputHash && memory.run.owner == first.owner
                  && redis.Existing? == memory.Existing? && redis.Conflict? == memory.Conflict?)
            && (trace[j].op.RequestCancel? ==>
                  && (memory.CancelAccepted? ==> memory.notify == first.owner)
                  && (redis.CancelAccepted? ==> redis.notify == first.owner))
  {
    hide Final, RedisFinal, Memory.After, Redis.After, TerminalReceipt;
    var id, part := trace[i].op.id, trace[..j];
    assert part[..i + 1] == trace[..i + 1];
    CreatedAt(trace, leaseMs, i);
    FinalSplit(map[], part, leaseMs, i + 1);
    IdentityKept(Final(map[], trace[..i + 1], leaseMs), part[i + 1..], leaseMs, id);
    PrefixClock(start, trace, j);
    Simulation(start, part, leaseMs);
    var runs, hashes := Final(map[], part, leaseMs), RedisFinal(map[], part, leaseMs);
    assert Alike(runs[id], Redis.Deserialize(hashes[id]), LastTime(start, part));
  }
}

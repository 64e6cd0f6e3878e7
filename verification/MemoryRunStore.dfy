/** The in-memory run store: a Map of records whose fields the operations change in place. */
module MemoryRunStore {
  import opened Wrappers
  import opened RunStore

  /** `expireOwnerLease`, on the record itself. */
  function Expire(record: RunRecord, now: int): RunRecord {
    if Lapsed(record, now)
    then record.(status := Failed, errorCode := Some(OWNER_LOST),
                 receipt := Some(TerminalReceipt(Failed, Some(OWNER_LOST), record.receipt)))
    else record
  }

  /** The record after `complete`. */
  function Completed(record: RunRecord, now: int, instance: string, status: RunStatus, receipt: Receipt): RunRecord
    requires IsTerminal(status)
  {
    if IsTerminal(record.status) || record.owner != instance then record
    else if record.leaseExpiresAt <= now then
      record.(status := Failed, errorCode := Some(OWNER_LOST),
              receipt := Some(TerminalReceipt(Failed, Some(OWNER_LOST), Some(receipt))))
    else if record.cancelRequested && status == Succeeded then
      record.(status := Cancelled, errorCode := None,
              receipt := Some(TerminalReceipt(Cancelled, None, Some(receipt))))
    else record.(status := status, errorCode := receipt.errorCode, receipt := Some(receipt))
  }

  /** What one operation at time `now` makes of the record it names. */
  function After(record: RunRecord, op: Op, now: int, leaseMs: int): RunRecord
    requires ValidOp(op)
  {
    match op
    case CreateOrGet(_, _) => record
    case Get(_) => Expire(record, now)
    case MarkRunning(_) =>
      var after := Expire(record, now);
      if IsTerminal(after.status) then after else after.(status := Running, leaseExpiresAt := now + leaseMs)
    case Heartbeat(_, instance) =>
      var after := Expire(record, now);
      if IsTerminal(after.status) || after.owner != instance then after else after.(leaseExpiresAt := now + leaseMs)
    case Complete(_, instance, status, receipt, _) => Completed(record, now, instance, status, receipt)
    case RequestCancel(_) => if IsTerminal(record.status) then record else record.(cancelRequested := true)
  }

  /** One operation at time `now`: the map afterwards. */
  function Next(runs: Runs, op: Op, now: int, leaseMs: int): Runs
    requires ValidOp(op)
  {
    if op.id in runs then runs[op.id := After(runs[op.id], op, now, leaseMs)]
    else if op.CreateOrGet? then runs[op.id := op.record]
    else runs
  }

  /** One operation at time `now`: its reply. */
  function Answer(runs: Runs, op: Op, now: int, leaseMs: int): Reply
    requires ValidOp(op)
  {
    var after := Next(runs, op, now, leaseMs);
    match op
    case CreateOrGet(id, record) =>
      if id !in runs then Created(record)
      else if runs[id].inputHash == record.inputHash then Existing(runs[id])
      else Conflict(runs[id])
    case Heartbeat(id, instance) =>
      Beat(id in after && !IsTerminal(after[id].status) && after[id].owner == instance)
    case RequestCancel(id) =>
      if id !in runs then CancelNotFound
      else if IsTerminal(runs[id].status) then CancelTerminal(runs[id].status)
      else CancelAccepted(runs[id].owner)
    case _ => Record(Lookup(after, op.id))
  }

  class MemoryRunStore {
    var runs: Runs
    const leaseMs: int

    constructor (leaseMs: int)
      ensures runs == map[] && this.leaseMs == leaseMs
    {
      this.runs := map[];
      this.leaseMs := leaseMs;
    }

    /** `expireOwnerLease`, where the id has a record. */
    method ExpireOwnerLease(id: string, now: int)
      modifies this`runs
      ensures runs == if id in old(runs) then old(runs)[id := Expire(old(runs)[id], now)] else old(runs)
    {
      if id in runs {
        var record := runs[id];
        if !IsTerminal(record.status) && record.leaseExpiresAt <= now {
          record := record.(status := Failed);
          record := record.(errorCode := Some(OWNER_LOST));
          record := record.(receipt := Some(TerminalReceipt(Failed, Some(OWNER_LOST), record.receipt)));
        }
        runs := runs[id := record];
      }
    }

    method CreateOrGet(id: string, record: RunRecord, now: int) returns (r: Reply)
      modifies this`runs
      ensures runs == Next(old(runs), Op.CreateOrGet(id, record), now, leaseMs)
      ensures r == Answer(old(runs), Op.CreateOrGet(id, record), now, leaseMs)
      ensures id !in old(runs) ==> runs == old(runs)[id := record] && r == Created(record)
      ensures id in old(runs) ==> runs == old(runs) && (r == Existing(runs[id]) || r == Conflict(runs[id]))
      ensures r.Existing? <==> id in old(runs) && old(runs)[id].inputHash == record.inputHash
    {
      if id in runs {
        var existing := runs[id];
        if existing.inputHash == record.inputHash {
          return Existing(existing);
        }
        return Conflict(existing);
      }
      runs := runs[id := record];
      return Created(record);
    }

    method Get(id: string, now: int) returns (r: Reply)
      modifies this`runs
      ensures runs == Next(old(runs), Op.Get(id), now, leaseMs)
      ensures r == Answer(old(runs), Op.Get(id), now, leaseMs)
      ensures r == Record(if id in runs then Some(runs[id]) else None)
      ensures id in old(runs) && (IsTerminal(old(runs)[id].status) || now < old(runs)[id].leaseExpiresAt) ==>
                runs == old(runs)
    {
      ExpireOwnerLease(id, now);
      r := Record(Lookup(runs, id));
    }

    method MarkRunning(id: string, now: int) returns (r: Reply)
      modifies this`runs
      ensures runs == Next(old(runs), Op.MarkRunning(id), now, leaseMs)
      ensures r == Answer(old(runs), Op.MarkRunning(id), now, leaseMs)
      ensures r == Record(if id in runs then Some(runs[id]) else None)
      ensures id in old(runs) && !IsTerminal(old(runs)[id].status) && now < old(runs)[id].leaseExpiresAt ==>
                runs == old(runs)[id := old(runs)[id].(status := Running, leaseExpiresAt := now + leaseMs)]
    {
      ExpireOwnerLease(id, now);
      if id !in runs || IsTerminal(runs[id].status) {
        return Record(Lookup(runs, id));
      }
      runs := runs[id := runs[id].(status := Running)];
      runs := runs[id := runs[id].(leaseExpiresAt := now + leaseMs)];
      return Record(Lookup(runs, id));
    }

    method Heartbeat(id: string, instance: string, now: int) returns (r: Reply)
      modifies this`runs
      ensures runs == Next(old(runs), Op.Heartbeat(id, instance), now, leaseMs)
      ensures r == Answer(old(runs), Op.Heartbeat(id, instance), now, leaseMs)
      ensures r == Beat(id in old(runs) && !IsTerminal(old(runs)[id].status) && old(runs)[id].owner == instance
                        && now < old(runs)[id].leaseExpiresAt)
      ensures r == Beat(true) ==> runs == old(runs)[id := old(runs)[id].(leaseExpiresAt := now + leaseMs)]
    {
      ExpireOwnerLease(id, now);
      if id !in runs || IsTerminal(runs[id].status) || runs[id].owner != instance {
        return Beat(false);
      }
      runs := runs[id := runs[id].(leaseExpiresAt := now + leaseMs)];
      return Beat(true);
    }

    method Complete(id: string, instance: string, status: RunStatus, receipt: Receipt, code: Option<string>, now: int)
      returns (r: Reply)
      requires IsTerminal(status)
      modifies this`runs
      ensures runs == Next(old(runs), Op.Complete(id, instance, status, receipt, code), now, leaseMs)
      ensures r == Answer(old(runs), Op.Complete(id, instance, status, receipt, code), now, leaseMs)
      ensures r == Record(if id in runs then Some(runs[id]) else None)
      ensures id in old(runs) && old(runs)[id].owner != instance ==> runs == old(runs)
    {
      if id !in runs || IsTerminal(runs[id].status) {
        return Record(Lookup(runs, id));
      }
      var record := runs[id];
      if record.owner != instance {
        return Record(Some(record));
      }
      if record.leaseExpiresAt <= now {
        record := record.(status := Failed, errorCode := Some(OWNER_LOST));
        record := record.(receipt := Some(TerminalReceipt(Failed, Some(OWNER_LOST), Some(receipt))));
        runs := runs[id := record];
        return Record(Some(record));
      }
      var finalStatus := if record.cancelRequested && status == Succeeded then Cancelled else status;
      var finalReceipt := if finalStatus == status then receipt else TerminalReceipt(Cancelled, None, Some(receipt));
      record := record.(status := finalStatus);
      record := record.(receipt := Some(finalReceipt));
      record := record.(errorCode := finalReceipt.errorCode);
      runs := runs[id := record];
      return Record(Some(record));
    }

    method RequestCancel(id: string, now: int) returns (r: Reply)
      modifies this`runs
      ensures runs == Next(old(runs), Op.RequestCancel(id), now, leaseMs)
      ensures r == Answer(old(runs), Op.RequestCancel(id), now, leaseMs)
      ensures r.CancelAccepted? <==> id in old(runs) && !IsTerminal(old(runs)[id].status)
      ensures r.CancelAccepted? ==> r.notify == old(runs)[id].owner
      ensures runs == if r.CancelAccepted? then old(runs)[id := old(runs)[id].(cancelRequested := true)] else old(runs)
    {
      if id !in runs {
        return CancelNotFound;
      }
      if IsTerminal(runs[id].status) {
        return CancelTerminal(runs[id].status);
      }
      runs := runs[id := runs[id].(cancelRequested := true)];
      return CancelAccepted(runs[id].owner);
    }
  }
}

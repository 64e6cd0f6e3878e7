/** The Redis run store: each Lua script is one atomic step that reads and sets the fields of one hash. */
module RedisRunStore {
  import opened Wrappers
  import opened RunStore

  /** The fields of a stored hash; "1" and "" are how flags and absent codes are written. */
  datatype Hash = Hash(
    inputHash: string,
    status: RunStatus,
    owner: string,
    cancelRequested: string,
    leaseExpiresAt: int,
    receiptJson: Option<Receipt>,
    errorCode: string)

  type Hashes = map<string, Hash>

  function Serialize(record: RunRecord): Hash {
    Hash(record.inputHash, record.status, record.owner, if record.cancelRequested then "1" else "0",
         record.leaseExpiresAt, record.receipt, if record.errorCode.Some? then record.errorCode.value else "")
  }

  function Deserialize(hash: Hash): RunRecord {
    RunRecord(hash.inputHash, hash.status, hash.owner, hash.cancelRequested == "1", hash.leaseExpiresAt,
              hash.receiptJson, if hash.errorCode == "" then None else Some(hash.errorCode))
  }

  /** Storing a record and reading it back returns it, exactly unless its error code is the empty string. */
  lemma RoundTrip(record: RunRecord)
    ensures Deserialize(Serialize(record)) == record <==> record.errorCode != Some("")
  {
    if record.errorCode.Some? {
      assert Serialize(record).errorCode == record.errorCode.value;
    }
  }

  /** A hash whose stored id is the empty string reads as absent. */
  function Read(hashes: Hashes, id: string): Option<RunRecord> {
    if id in hashes && id != "" then Some(Deserialize(hashes[id])) else None
  }

  /** The receipt that the scripts themselves build: one event, whatever was stored before. */
  const OWNER_LOST_RECEIPT := Receipt(Failed, Some(OWNER_LOST), [TraceEvent(1, RunFailed)], false)

  function OwnerLost(hash: Hash): Hash {
    hash.(status := Failed, errorCode := OWNER_LOST, receiptJson := Some(OWNER_LOST_RECEIPT))
  }

  /** EXPIRE_OWNER_SCRIPT */
  function Expired(hash: Hash, now: int): Hash {
    if (hash.status == Queued || hash.status == Running) && hash.leaseExpiresAt <= now then OwnerLost(hash) else hash
  }

  /** MARK_RUNNING_SCRIPT */
  function Marked(hash: Hash, now: int, until: int): Hash {
    if IsTerminal(hash.status) then hash
    else if hash.leaseExpiresAt <= now then OwnerLost(hash)
    else hash.(status := Running, leaseExpiresAt := until)
  }

  /** HEARTBEAT_SCRIPT */
  function Beaten(hash: Hash, instance: string, now: int, until: int): (Hash, bool) {
    if hash.owner != instance || IsTerminal(hash.status) then (hash, false)
    else if hash.leaseExpiresAt <= now then (OwnerLost(hash), false)
    else (hash.(leaseExpiresAt := until), true)
  }

  /** COMPLETE_SCRIPT */
  function Completed(hash: Hash, now: int, instance: string, status: RunStatus, receipt: Receipt,
                     code: Option<string>): Hash
    requires IsTerminal(status)
  {
    if IsTerminal(hash.status) || hash.owner != instance then hash
    else if hash.leaseExpiresAt <= now then
      hash.(status := Failed, errorCode := OWNER_LOST,
            receiptJson := Some(TerminalReceipt(Failed, Some(OWNER_LOST), Some(receipt))))
    else if hash.cancelRequested == "1" && status == Succeeded then
      hash.(status := Cancelled, errorCode := "", receiptJson := Some(TerminalReceipt(Cancelled, None, Some(receipt))))
    else hash.(status := status, errorCode := if code.Some? then code.value else "", receiptJson := Some(receipt))
  }

  function ExpireAt(hashes: Hashes, id: string, now: int): Hashes {
    if id in hashes then hashes[id := Expired(hashes[id], now)] else hashes
  }

  /** What one operation of the client at time `now` makes of the hash it names: one script, and a read after most. */
  function After(hash: Hash, op: Op, now: int, leaseMs: int): Hash
    requires ValidOp(op)
  {
    match op
    case CreateOrGet(_, _) => Expired(hash, now)
    case Get(_) => Expired(hash, now)
    case MarkRunning(_) => Expired(Marked(hash, now, now + leaseMs), now)
    case Heartbeat(_, instance) => Beaten(hash, instance, now, now + leaseMs).0
    case Complete(_, instance, status, receipt, code) =>
      Expired(Completed(hash, now, instance, status, receipt, code), now)
    case RequestCancel(_) => if IsTerminal(hash.status) then hash else hash.(cancelRequested := "1")
  }

  function Next(hashes: Hashes, op: Op, now: int, leaseMs: int): Hashes
    requires ValidOp(op)
  {
    if op.id in hashes then hashes[op.id := After(hashes[op.id], op, now, leaseMs)]
    else if op.CreateOrGet? then hashes[op.id := Expired(Serialize(op.record), now)]
    else hashes
  }

  function Answer(hashes: Hashes, op: Op, now: int, leaseMs: int): Reply
    requires ValidOp(op)
  {
    var after := Next(hashes, op, now, leaseMs);
    match op
    case CreateOrGet(id, record) =>
      var run := Read(after, id);
      if run.None? then NotFoundAfterCreate
      else if id !in hashes then Created(run.value)
      else if hashes[id].inputHash == record.inputHash then Existing(run.value)
      else Conflict(run.value)
    case Heartbeat(id, instance) => Beat(id in hashes && Beaten(hashes[id], instance, now, now + leaseMs).1)
    case RequestCancel(id) =>
      if id !in hashes then CancelNotFound
      else if IsTerminal(hashes[id].status) then CancelTerminal(hashes[id].status)
      else if hashes[id].owner == "" then CancelInvalid
      else CancelAccepted(hashes[id].owner)
    case _ => Record(Read(after, op.id))
  }

  class RedisRunStore {
    var hashes: Hashes
    const leaseMs: int

    constructor (leaseMs: int)
      ensures hashes == map[] && this.leaseMs == leaseMs
    {
      this.hashes := map[];
      this.leaseMs := leaseMs;
    }

    /** `redis.call("HSET", key, "status", "failed", ...)` followed by the owner-lost receipt. */
    method SetOwnerLost(id: string)
      requires id in hashes
      modifies this`hashes
      ensures hashes == old(hashes)[id := OwnerLost(old(hashes)[id])]
    {
      hashes := hashes[id := hashes[id].(status := Failed)];
      hashes := hashes[id := hashes[id].(errorCode := OWNER_LOST)];
      hashes := hashes[id := hashes[id].(receiptJson := None)];
      hashes := hashes[id := hashes[id].(receiptJson := Some(OWNER_LOST_RECEIPT))];
    }

    method ExpireOwnerScript(id: string, now: int) returns (found: bool)
      modifies this`hashes
      ensures hashes == ExpireAt(old(hashes), id, now)
      ensures found == (id in old(hashes))
    {
      if id !in hashes {
        return false;
      }
      var status, lease := hashes[id].status, hashes[id].leaseExpiresAt;
      if (status == Queued || status == Running) && lease <= now {
        SetOwnerLost(id);
      }
      return true;
    }

    method MarkRunningScript(id: string, now: int, until: int) returns (found: bool)
      modifies this`hashes
      ensures found == (id in old(hashes))
      ensures hashes == if found then old(hashes)[id := Marked(old(hashes)[id], now, until)] else old(hashes)
    {
      if id !in hashes {
        return false;
      }
      if !IsTerminal(hashes[id].status) {
        if hashes[id].leaseExpiresAt <= now {
          SetOwnerLost(id);
        } else {
          hashes := hashes[id := hashes[id].(status := Running, leaseExpiresAt := until)];
        }
      }
      return true;
    }

    method CompleteScript(id: string, instance: string, status: RunStatus, receipt: Receipt, code: string,
                          cancelled: Receipt, ownerLost: Receipt, now: int)
      requires IsTerminal(status)
      requires cancelled == TerminalReceipt(Cancelled, None, Some(receipt))
      requires ownerLost == TerminalReceipt(Failed, Some(OWNER_LOST), Some(receipt))
      modifies this`hashes
      ensures hashes == if id in old(hashes)
                        then old(hashes)[id := Completed(old(hashes)[id], now, instance, status, receipt, Some(code))]
                        else old(hashes)
    {
      if id !in hashes || IsTerminal(hashes[id].status) || hashes[id].owner != instance {
        return;
      }
      if hashes[id].leaseExpiresAt <= now {
        hashes := hashes[id := hashes[id].(status := Failed, errorCode := OWNER_LOST, receiptJson := Some(ownerLost))];
        return;
      }
      var finalStatus := status;
      if hashes[id].cancelRequested == "1" && finalStatus == Succeeded {
        finalStatus := Cancelled;
      }
      hashes := hashes[id := hashes[id].(status := finalStatus,
                                         receiptJson := Some(if finalStatus == status then receipt else cancelled),
                                         errorCode := if finalStatus == status then code else "")];
    }

    method Get(id: string, now: int) returns (r: Reply)
      modifies this`hashes
      ensures hashes == Next(old(hashes), Op.Get(id), now, leaseMs)
      ensures r == Answer(old(hashes), Op.Get(id), now, leaseMs)
    {
      var _ := ExpireOwnerScript(id, now);
      r := Record(Read(hashes, id));
    }

    method CreateOrGet(id: string, record: RunRecord, now: int) returns (r: Reply)
      modifies this`hashes
      ensures hashes == Next(old(hashes), Op.CreateOrGet(id, record), now, leaseMs)
      ensures r == Answer(old(hashes), Op.CreateOrGet(id, record), now, leaseMs)
      ensures r.Created? ==> id !in old(hashes) && r.run.inputHash == record.inputHash && r.run.owner == record.owner
      ensures r.Existing? ==> id in old(hashes) && old(hashes)[id].inputHash == record.inputHash
      ensures r.Conflict? ==> id in old(hashes) && old(hashes)[id].inputHash != record.inputHash
      ensures r.NotFoundAfterCreate? <==> id == ""
    {
      var existed := id in hashes;
      var same := existed && hashes[id].inputHash == record.inputHash;
      if !existed {
        hashes := hashes[id := Serialize(record)];
      }
      var found := Get(id, now);
      if found.found.None? {
        return NotFoundAfterCreate;
      }
      var run := found.found.value;
      r := if !existed then Created(run) else if same then Existing(run) else Conflict(run);
    }

    method MarkRunning(id: string, now: int) returns (r: Reply)
      modifies this`hashes
      ensures hashes == Next(old(hashes), Op.MarkRunning(id), now, leaseMs)
      ensures r == Answer(old(hashes), Op.MarkRunning(id), now, leaseMs)
    {
      var found := MarkRunningScript(id, now, now + leaseMs);
      if !found {
        return Record(None);
      }
      r := Get(id, now);
    }

    method Heartbeat(id: string, instance: string, now: int) returns (r: Reply)
      modifies this`hashes
      ensures hashes == Next(old(hashes), Op.Heartbeat(id, instance), now, leaseMs)
      ensures r == Answer(old(hashes), Op.Heartbeat(id, instance), now, leaseMs)
      ensures r == Beat(id in old(hashes) && !IsTerminal(old(hashes)[id].status) && old(hashes)[id].owner == instance
                        && now < old(hashes)[id].leaseExpiresAt)
      ensures r == Beat(true) ==> hashes == old(hashes)[id := old(hashes)[id].(leaseExpiresAt := now + leaseMs)]
    {
      if id !in hashes || hashes[id].owner != instance || IsTerminal(hashes[id].status) {
        return Beat(false);
      }
      if hashes[id].leaseExpiresAt <= now {
        SetOwnerLost(id);
        return Beat(false);
      }
      hashes := hashes[id := hashes[id].(leaseExpiresAt := now + leaseMs)];
      return Beat(true);
    }

    method Complete(id: string, instance: string, status: RunStatus, receipt: Receipt, code: Option<string>, now: int)
      returns (r: Reply)
      requires IsTerminal(status)
      modifies this`hashes
      ensures hashes == Next(old(hashes), Op.Complete(id, instance, status, receipt, code), now, leaseMs)
      ensures r == Answer(old(hashes), Op.Complete(id, instance, status, receipt, code), now, leaseMs)
    {
      hide TerminalReceipt;
      var cancelledReceipt := TerminalReceipt(Cancelled, None, Some(receipt));
      var ownerLostReceipt := TerminalReceipt(Failed, Some(OWNER_LOST), Some(receipt));
      CompleteScript(id, instance, status, receipt, if code.Some? then code.value else "",
                     cancelledReceipt, ownerLostReceipt, now);
      r := Get(id, now);
    }

    method RequestCancel(id: string, now: int) returns (r: Reply)
      modifies this`hashes
      ensures hashes == Next(old(hashes), Op.RequestCancel(id), now, leaseMs)
      ensures r == Answer(old(hashes), Op.RequestCancel(id), now, leaseMs)
      ensures r.CancelAccepted? ==> r.notify == old(hashes)[id].owner
      ensures hashes == if id in old(hashes) && !IsTerminal(old(hashes)[id].status)
                        then old(hashes)[id := old(hashes)[id].(cancelRequested := "1")] else old(hashes)
    {
      if id !in hashes {
        return CancelNotFound;
      }
      if IsTerminal(hashes[id].status) {
        return CancelTerminal(hashes[id].status);
      }
      hashes := hashes[id := hashes[id].(cancelRequested := "1")];
      return if hashes[id].owner == "" then CancelInvalid else CancelAccepted(hashes[id].owner);
    }
  }
}

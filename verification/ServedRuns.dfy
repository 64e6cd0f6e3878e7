/** The server's use of a run store: the loop's receipt, or a terminal one in its place, completes a run. */
module ServedRuns {
  import opened Wrappers
  import opened RunStore
  import opened RunProtocol
  import Redis = RedisRunStore
  import Loop = Workflow

  /** The receipt is as the loop's contract promises of every receipt it returns. */
  ghost predicate FromLoop(receipt: Receipt) {
    exists world: Loop.World, run: Loop.RunReceipt :: Loop.ReceiptSound(world, run) && run.receipt == receipt
  }

  /** How the server calls the store: new runs are queued and have no receipt yet. */
  ghost predicate Served(op: Op) {
    match op
    case CreateOrGet(_, record) => record.status == Queued && record.receipt.None?
    case Complete(_, _, status, receipt, code) =>
      || (FromLoop(receipt) && status == receipt.status)
      || ((status == Failed || status == Cancelled) && exists c :: receipt == TerminalReceipt(status, c, None))
    case _ => true
  }

  lemma ServedIsSound(op: Op)
    requires Served(op) && ValidOp(op)
    ensures Sound(op)
  {
    if op.Complete? {
      if FromLoop(op.receipt) && op.status == op.receipt.status {
        var world: Loop.World, run: Loop.RunReceipt :| Loop.ReceiptSound(world, run) && run.receipt == op.receipt;
      } else {
        var c :| op.receipt == TerminalReceipt(op.status, c, None);
        TerminalReceiptClosed(op.status, c, None);
      }
    }
  }

  /**
   * In every run of the server, on either store, each ended run has a receipt numbered from 1 without a gap whose
   * status is the run's and whose last event says so: as the loop wrote it, or rewritten for a cancel or a lost owner.
   */
  lemma ServedReceiptsMatch(trace: seq<Timed>, leaseMs: int, id: string)
    requires ValidTrace(trace) && forall i :: 0 <= i < |trace| ==> Served(trace[i].op)
    ensures id in Final(map[], trace, leaseMs) ==> ReceiptMatches(Final(map[], trace, leaseMs)[id])
    ensures id in RedisFinal(map[], trace, leaseMs) ==>
              ReceiptMatches(Redis.Deserialize(RedisFinal(map[], trace, leaseMs)[id]))
  {
    forall i | 0 <= i < |trace| ensures Sound(trace[i].op) {
      ServedIsSound(trace[i].op);
    }
    ReceiptsMatch(trace, leaseMs, id);
  }
}

/** What holds of the usage ledger over runs in which admissions, settlements, merges and deletions alternate. */
module LedgerRuns {
  import opened AccountDeletion
  import opened AccountMerge
  import opened Aliases
  import opened UsageLedger

  /**
   * One committed step. `now` is when an admission read the start of its day, and when a merge was made. An
   * admission under a key of its own stands for one that is made with a task: it reads the clock once, and its
   * refusal leaves no record that anyone asks for.
   */
  datatype Op =
    | Append(user: User, id: string, traceId: string, now: int, cost: real)
    | Admit(request: Request, now: int)
    | Update(index: nat, entry: Entry)
    | Delete(index: nat)
    | SignUp(user: User)
    | MergeUsers(merge: Merge, now: int)
    | DeleteAccount(user: User)

  /** The service passes the day that it read, and a creation time that it read before. */
  predicate AsServed(op: Op) {
    op.Admit? ==> op.request.createdAt <= op.now && op.request.dayStart == DayStart(op.now)
  }

  ghost function Next(s: State, op: Op): State {
    match op
    case Append(user, id, traceId, now, cost) =>
      s.(books := AfterAppend(s.aliases, s.books, user, id, traceId, now, cost))
    case Admit(q, _) => s.(books := AfterAdmit(s.aliases, s.books, q))
    case Update(i, entry) => s.(books := AfterUpdate(s.books, i, entry))
    case Delete(_) => s
    case SignUp(user) => s.(users := s.users + {user})
    case MergeUsers(m, _) => s.(aliases := AfterMerge(s.users, s.aliases, m))
    case DeleteAccount(user) => AfterDeletion(s, user)
  }

  ghost function Run(s: State, ops: seq<Op>): State {
    if ops == [] then s else Next(Run(s, ops[..|ops| - 1]), ops[|ops| - 1])
  }

  /** The latest moment that any operation carries; clocks need not agree. */
  function Later(from: int, op: Op): int {
    match op
    case Append(_, _, _, now, _) => if from < now then now else from
    case Admit(_, now) => if from < now then now else from
    case MergeUsers(_, now) => if from < now then now else from
    case _ => from
  }

  function TimeAfter(from: int, ops: seq<Op>): int {
    if ops == [] then from else Later(TimeAfter(from, ops[..|ops| - 1]), ops[|ops| - 1])
  }

  lemma {:induction false} RunKeepsForest(s: State, ops: seq<Op>)
    requires Forest(s.aliases)
    ensures Forest(Run(s, ops).aliases)
  {
    if ops != [] {
      var before := Run(s, ops[..|ops| - 1]);
      RunKeepsForest(s, ops[..|ops| - 1]);
      match ops[|ops| - 1]
      case MergeUsers(m, _) =>
        assert [m][0] == m && [m][1..] == [];
        assert AfterMerges(before.users, before.aliases, [m]) == AfterMerge(before.users, before.aliases, m);
        MergesKeepForest(before.users, before.aliases, [m]);
      case DeleteAccount(u) => DeletionKeepsForest(before.aliases, u);
      case _ =>
    }
  }

  // ----- conservation -----

  ghost predicate NoNegativeCost(b: Books) {
    forall i :: 0 <= i < |b.rows| ==> 0.0 <= b.rows[i].cost
  }

  lemma StepKeepsCosts(s: State, op: Op)
    requires NoNegativeCost(s.books)
    ensures NoNegativeCost(Next(s, op).books)
  {
    hide HasRoot, Class, Deletable, Decide, FindRecord;
  }

  lemma ConsumedGrows(rows: seq<Entry>, e: Entry, since: int)
    requires 0.0 <= e.cost
    ensures DailyCost(rows + [e], since) >= DailyCost(rows, since)
  {
    SumAppend(rows, e, CostIn({Consumed}, since));
  }

  lemma UpdateKeepsConsumed(rows: seq<Entry>, i: nat, entry: Entry, since: int)
    requires i < |rows| && GuardAllows(rows[i], entry) && 0.0 <= rows[i].cost
    ensures DailyCost(rows[i := entry], since) >= DailyCost(rows, since)
  {
    GuardConserves(rows, i, entry, since);
  }

  lemma StepKeepsConsumed(s: State, op: Op, since: int)
    requires NoNegativeCost(s.books)
    ensures NoNegativeCost(Next(s, op).books)
    ensures DailyCost(Next(s, op).books.rows, since) >= DailyCost(s.books.rows, since)
  {
    hide HasRoot, Class, Deletable, Decide, FindRecord, GuardAllows, NoNegativeCost, DailyCost;
    StepKeepsCosts(s, op);
    var b, after := s.books, Next(s, op).books;
    match op
    case Append(user, id, traceId, now, cost) =>
      if after != b {
        ConsumedGrows(b.rows, DirectUse(Root(s.aliases, user), id, traceId, now, cost), since);
      }
    case Admit(q, _) =>
      if after.rows != b.rows {
        ConsumedGrows(b.rows, Reservation(Root(s.aliases, q.user), q), since);
      }
    case Update(i, entry) =>
      if after != b {
        CostAt(b, i);
        UpdateKeepsConsumed(b.rows, i, entry, since);
      }
    case _ =>
  }

  lemma CostAt(b: Books, i: nat)
    requires NoNegativeCost(b) && i < |b.rows|
    ensures 0.0 <= b.rows[i].cost
  {
  }

  /** The consumed cost since any moment never falls. */
  lemma {:induction false} ConsumedNeverFalls(s: State, ops: seq<Op>, since: int)
    requires NoNegativeCost(s.books)
    ensures NoNegativeCost(Run(s, ops).books)
    ensures DailyCost(Run(s, ops).books.rows, since) >= DailyCost(s.books.rows, since)
  {
    hide Next;
    if ops != [] {
      ConsumedNeverFalls(s, ops[..|ops| - 1], since);
      StepKeepsConsumed(Run(s, ops[..|ops| - 1]), ops[|ops| - 1], since);
    }
  }

  /** A row keeps its place and all it was made with; once settled it never changes again. */
  predicate RowKept(before: Entry, after: Entry) {
    after == before || GuardAllows(before, after)
  }

  lemma StepKeepsRow(s: State, op: Op, i: nat)
    requires i < |s.books.rows|
    ensures i < |Next(s, op).books.rows| && RowKept(s.books.rows[i], Next(s, op).books.rows[i])
  {
  }

  lemma {:induction false} SettledForGood(s: State, ops: seq<Op>, i: nat)
    requires i < |s.books.rows|
    ensures i < |Run(s, ops).books.rows| && RowKept(s.books.rows[i], Run(s, ops).books.rows[i])
  {
    hide Next;
    if ops != [] {
      SettledForGood(s, ops[..|ops| - 1], i);
      StepKeepsRow(Run(s, ops[..|ops| - 1]), ops[|ops| - 1], i);
    }
  }

  // ----- positions in a run -----

  /** The state before step `k`. */
  ghost function At(s: State, ops: seq<Op>, k: nat): State {
    Run(s, if k < |ops| then ops[..k] else ops)
  }

  /** The latest time before step `k`. */
  function Time(from: int, ops: seq<Op>, k: nat): int {
    TimeAfter(from, if k < |ops| then ops[..k] else ops)
  }

  lemma AtNext(s: State, ops: seq<Op>, from: int, k: nat)
    requires k < |ops|
    ensures At(s, ops, k + 1) == Next(At(s, ops, k), ops[k])
    ensures Time(from, ops, k + 1) == Later(Time(from, ops, k), ops[k])
  {
    assert ops[..k + 1][..k] == ops[..k] && ops[..k + 1][k] == ops[k] && ops[..|ops|] == ops;
  }

  /** What each step leaves exactly when nothing happens at it holds all through exactly when nothing ever happens. */
  lemma Throughout(n: nat, holds: nat -> bool, happens: nat -> bool)
    requires holds(0) && forall k: nat :: k < n && holds(k) ==> (holds(k + 1) <==> !happens(k))
    ensures (forall k: nat :: k <= n ==> holds(k)) <==> (forall k: nat :: k < n ==> !happens(k))
  {
    if forall k: nat :: k <= n ==> holds(k) {
      forall k: nat | k < n ensures !happens(k) {
        assert holds(k) && holds(k + 1);
      }
    }
    if forall k: nat :: k < n ==> !happens(k) {
      for m := 0 to n
        invariant forall k: nat :: k <= m ==> holds(k)
      {
        assert holds(m) && !happens(m);
      }
    }
  }
}

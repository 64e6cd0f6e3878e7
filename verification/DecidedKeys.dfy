/** Idempotency keys over runs of the ledger: how long a decided request gets its decision again. */
module DecidedKeys {
  import opened AccountDeletion
  import opened AccountMerge
  import opened Aliases
  import opened LedgerRuns
  import opened UsageLedger

  /** A record of the key that the query may find for the user. */
  ghost predicate Found(t: Table, records: seq<Record>, user: User, key: string, r: Record) {
    r in records && r.key == key && HasRoot(t, user) && r.owner in Class(t, user)
  }

  ghost predicate IsFound(t: Table, records: seq<Record>, user: User, key: string) {
    exists r :: Found(t, records, user, key, r)
  }

  predicate Says(r: Record, hash: string, d: Decision) {
    r.bodyHash == hash && r.decision == d
  }

  /** Whatever record of the key is found for the user, it holds this decision on this input; and there is one. */
  ghost predicate AllSay(t: Table, records: seq<Record>, user: User, key: string, hash: string, d: Decision) {
    && IsFound(t, records, user, key)
    && forall r :: Found(t, records, user, key, r) ==> Says(r, hash, d)
  }

  /** The request again, with another input and another choice of the query. */
  function Ask(again: Request, hash: string, pick: nat): Request {
    again.(bodyHash := hash, pick := pick)
  }

  /** The same key is answered with the same decision, and with an error for other input. */
  ghost predicate Repeats(t: Table, b: Books, again: Request, hash: string, d: Decision) {
    forall h: string, pick: nat ::
      AnswerTo(t, b, Ask(again, h, pick)) == if h == hash then Decided(d) else Refused(KeyReused)
  }

  // ----- one moment -----

  lemma MatchingHas(records: seq<Record>, owners: set<User>, key: string, r: Record) returns (pick: nat)
    requires r in records && r.owner in owners && r.key == key
    ensures pick < |Matching(records, owners, key)| && Matching(records, owners, key)[pick] == r
  {
    assert r in Matching(records, owners, key);
    pick :| pick < |Matching(records, owners, key)| && Matching(records, owners, key)[pick] == r;
  }

  /** A found key is answered from the record that the query picks, and nothing changes. */
  lemma AnswerOfFound(t: Table, b: Books, again: Request)
    requires 0.0 <= again.cost && HasRoot(t, again.user) && IsFound(t, b.records, again.user, again.key)
    ensures AfterAdmit(t, b, again) == b
    ensures var found := Matching(b.records, Class(t, again.user), again.key);
            && found != []
            && var r := found[again.pick % |found|];
               AnswerTo(t, b, again) == if r.bodyHash != again.bodyHash then Refused(KeyReused) else Decided(r.decision)
  {
    hide Class, HasRoot;
    var r :| Found(t, b.records, again.user, again.key, r);
    var _ := MatchingHas(b.records, Class(t, again.user), again.key, r);
  }

  lemma PickedIsFound(t: Table, records: seq<Record>, user: User, key: string, pick: nat)
    requires HasRoot(t, user) && Matching(records, Class(t, user), key) != []
    ensures var found := Matching(records, Class(t, user), key); Found(t, records, user, key, found[pick % |found|])
  {
    hide Class, HasRoot;
    var found := Matching(records, Class(t, user), key);
    assert found[pick % |found|] in found;
  }

  /** Each record that may be found is what some query picks. */
  lemma RepeatsSays(t: Table, b: Books, again: Request, hash: string, d: Decision, r: Record)
    requires 0.0 <= again.cost && Repeats(t, b, again, hash, d) && Found(t, b.records, again.user, again.key, r)
    ensures Says(r, hash, d)
  {
    hide Found, AnswerTo;
    var pick := AnswerFrom(t, b, again, hash, r);
    assert AnswerTo(t, b, Ask(again, hash, pick)) == Decided(d);
  }

  /** Any record that is found is the one that some query answers from. */
  lemma AnswerFrom(t: Table, b: Books, again: Request, hash: string, r: Record) returns (pick: nat)
    requires 0.0 <= again.cost && Found(t, b.records, again.user, again.key, r)
    ensures AnswerTo(t, b, Ask(again, hash, pick))
         == if r.bodyHash != hash then Refused(KeyReused) else Decided(r.decision)
  {
    hide Class, HasRoot, AnswerTo, Matching;
    pick := MatchingHas(b.records, Class(t, again.user), again.key, r);
    hide AfterAdmit;
    SmallRemainder(pick, |Matching(b.records, Class(t, again.user), again.key)|);
    AnswerOfFound(t, b, Ask(again, hash, pick));
  }

  lemma SmallRemainder(pick: nat, n: nat)
    requires pick < n
    ensures pick % n == pick
  {
  }

  /** A found key is answered from its records: exactly when they all say so is the answer always the same. */
  lemma RepeatsExactly(t: Table, b: Books, again: Request, hash: string, d: Decision)
    requires 0.0 <= again.cost && HasRoot(t, again.user) && IsFound(t, b.records, again.user, again.key)
    ensures Repeats(t, b, again, hash, d) <==> AllSay(t, b.records, again.user, again.key, hash, d)
    ensures AfterAdmit(t, b, again) == b
  {
    hide Class, HasRoot, AnswerTo, AfterAdmit, Matching, Found;
    AnswerOfFound(t, b, again);
    if Repeats(t, b, again, hash, d) {
      forall r | Found(t, b.records, again.user, again.key, r) ensures Says(r, hash, d) {
        RepeatsSays(t, b, again, hash, d, r);
      }
    }
    if AllSay(t, b.records, again.user, again.key, hash, d) {
      forall h: string, pick: nat
        ensures AnswerTo(t, b, Ask(again, h, pick)) == if h == hash then Decided(d) else Refused(KeyReused)
      {
        AnswerOfFound(t, b, Ask(again, h, pick));
        PickedIsFound(t, b.records, again.user, again.key, pick);
      }
    }
  }

  // ----- one step -----

  /** The merge puts the two users under one account that they did not share. */
  ghost predicate Joins(s: State, m: Merge, user: User, other: User) {
    && Allowed(s.users, s.aliases, m) && HasRoot(s.aliases, user) && HasRoot(s.aliases, other)
    && ((Root(s.aliases, user) == m.source && Root(s.aliases, other) == Root(s.aliases, m.target))
        || (Root(s.aliases, other) == m.source && Root(s.aliases, user) == Root(s.aliases, m.target)))
  }

  /** A merge that brings in a record of the key with another decision or for other input. */
  ghost predicate BringsOther(s: State, op: Op, user: User, key: string, hash: string, d: Decision) {
    op.MergeUsers? && exists r ::
      r in s.books.records && r.key == key && !Says(r, hash, d) && Joins(s, op.merge, user, r.owner)
  }

  /** The step deletes the user's account. */
  ghost predicate Deletes(s: State, op: Op, user: User) {
    && op.DeleteAccount? && Deletable(s.aliases, s.books.rows, op.user)
    && HasRoot(s.aliases, user) && Root(s.aliases, user) == Root(s.aliases, op.user)
  }

  /** Where the user's class grows: exactly by the other account of a merge. */
  lemma FoundAfterMerge(s: State, m: Merge, records: seq<Record>, user: User, key: string, r: Record)
    requires Forest(s.aliases) && r in records
    ensures Found(AfterMerge(s.users, s.aliases, m), records, user, key, r)
       <==> Found(s.aliases, records, user, key, r) || (r.key == key && Joins(s, m, user, r.owner))
  {
    var t, after := s.aliases, AfterMerge(s.users, s.aliases, m);
    assert HasRoot(t, user) && HasRoot(t, r.owner);
    ClassIsSameRoot(t, user, r.owner);
    if Allowed(s.users, t, m) {
      SourceIsRoot(t, m.source);
      RootAfterMerge(s.users, t, m, user);
      RootAfterMerge(s.users, t, m, r.owner);
      ClassIsSameRoot(after, user, r.owner);
    }
  }

  lemma MergeSays(s: State, m: Merge, now: int, user: User, key: string, hash: string, d: Decision)
    requires Forest(s.aliases) && IsFound(s.aliases, s.books.records, user, key)
    ensures var after := AfterMerge(s.users, s.aliases, m);
            && IsFound(after, s.books.records, user, key)
            && (AllSay(after, s.books.records, user, key, hash, d)
                <==> AllSay(s.aliases, s.books.records, user, key, hash, d)
                     && !BringsOther(s, MergeUsers(m, now), user, key, hash, d))
  {
    hide HasRoot, Class, Allowed, AfterMerge, Says, Joins;
    var t, records, after := s.aliases, s.books.records, AfterMerge(s.users, s.aliases, m);
    forall r | r in records
      ensures Found(after, records, user, key, r)
         <==> Found(t, records, user, key, r) || (r.key == key && Joins(s, m, user, r.owner))
    {
      FoundAfterMerge(s, m, records, user, key, r);
    }
    var w :| Found(t, records, user, key, w);
    assert Found(after, records, user, key, w);
  }

  /** Of the deleted account no record is left; what is found for anyone else stays. */
  lemma FoundAfterDeletion(s: State, u: User, user: User, key: string, r: Record)
    requires Forest(s.aliases) && HasRoot(s.aliases, user) && Deletable(s.aliases, s.books.rows, u)
    ensures var after := AfterDeletion(s, u);
            Found(after.aliases, after.books.records, user, key, r)
            <==> Found(s.aliases, s.books.records, user, key, r) && Root(s.aliases, user) != Root(s.aliases, u)
  {
    var t := s.aliases;
    ClassAfterDeletion(t, u, user);
    ClassIsSameRoot(t, u, user);
    assert HasRoot(t, r.owner);
    ClassIsSameRoot(t, u, r.owner);
    ClassIsSameRoot(t, user, r.owner);
  }

  lemma DeletionSays(s: State, u: User, user: User, key: string, hash: string, d: Decision)
    requires Forest(s.aliases) && IsFound(s.aliases, s.books.records, user, key)
    ensures var after := AfterDeletion(s, u);
            && (IsFound(after.aliases, after.books.records, user, key) <==> !Deletes(s, DeleteAccount(u), user))
            && (!Deletes(s, DeleteAccount(u), user) ==>
                  (AllSay(after.aliases, after.books.records, user, key, hash, d)
                   <==> AllSay(s.aliases, s.books.records, user, key, hash, d)))
  {
    hide Class, Says;
    var after := AfterDeletion(s, u);
    assert HasRoot(s.aliases, user);
    if Deletable(s.aliases, s.books.rows, u) {
      forall r
        ensures Found(after.aliases, after.books.records, user, key, r)
           <==> Found(s.aliases, s.books.records, user, key, r) && Root(s.aliases, user) != Root(s.aliases, u)
      {
        FoundAfterDeletion(s, u, user, key, r);
      }
      var w :| Found(s.aliases, s.books.records, user, key, w);
    }
  }

  /** An admission adds no record of a key that the user's account has. */
  lemma AdmitSays(s: State, q: Request, now: int, user: User, key: string, r: Record)
    requires Forest(s.aliases) && IsFound(s.aliases, s.books.records, user, key)
    ensures var after := Next(s, Admit(q, now));
            Found(after.aliases, after.books.records, user, key, r)
            <==> Found(s.aliases, s.books.records, user, key, r)
  {
    var t, records, after := s.aliases, s.books.records, Next(s, Admit(q, now)).books.records;
    if after != records {
      var added := after[|records|];
      assert after == records + [added];
      if Found(t, after, user, key, added) {
        ClassIsSameRoot(t, user, q.user);
        ClassIsSameRoot(t, user, added.owner);
        SourceIsRoot(t, Root(t, q.user));
      }
    }
  }

  /** A found key is lost exactly with its account; else its records keep saying the same unless a merge disagrees. */
  lemma StepSays(s: State, op: Op, user: User, key: string, hash: string, d: Decision)
    requires Forest(s.aliases) && IsFound(s.aliases, s.books.records, user, key)
    ensures var after := Next(s, op);
            && (IsFound(after.aliases, after.books.records, user, key) <==> !Deletes(s, op, user))
            && (!Deletes(s, op, user) ==>
                  (AllSay(after.aliases, after.books.records, user, key, hash, d)
                   <==> AllSay(s.aliases, s.books.records, user, key, hash, d)
                        && !BringsOther(s, op, user, key, hash, d)))
  {
    hide Found, Allowed, AfterAdmit, AfterAppend, AfterUpdate, AfterMerge, AfterDeletion, Says, Joins, Deletable;
    match op
    case MergeUsers(m, now) => MergeSays(s, m, now, user, key, hash, d);
    case DeleteAccount(u) => DeletionSays(s, u, user, key, hash, d);
    case Admit(q, now) =>
      var after := Next(s, op);
      forall r
        ensures Found(after.aliases, after.books.records, user, key, r)
           <==> Found(s.aliases, s.books.records, user, key, r)
      {
        AdmitSays(s, q, now, user, key, r);
      }
    case Append(_, _, _, _, _) => OnlyRows(s, op);
    case Update(_, _) => OnlyRows(s, op);
    case _ =>
  }

  lemma OnlyRows(s: State, op: Op)
    requires op.Append? || op.Update?
    ensures Next(s, op).aliases == s.aliases && Next(s, op).books.records == s.books.records
  {
  }

  // ----- a run -----

  ghost predicate BringsOtherAt(s: State, ops: seq<Op>, k: nat, user: User, key: string, hash: string, d: Decision) {
    k < |ops| && BringsOther(At(s, ops, k), ops[k], user, key, hash, d)
  }

  ghost predicate DeletesAt(s: State, ops: seq<Op>, k: nat, user: User) {
    k < |ops| && Deletes(At(s, ops, k), ops[k], user)
  }

  /** No step of the run deletes the user's account. */
  ghost predicate Stays(s: State, ops: seq<Op>, user: User) {
    forall k: nat :: k < |ops| ==> !DeletesAt(s, ops, k, user)
  }

  lemma PrefixAt(s: State, ops: seq<Op>, k: nat)
    requires k < |ops| - 1
    ensures At(s, ops, k) == At(s, ops[..|ops| - 1], k) && ops[k] == ops[..|ops| - 1][k]
  {
    assert ops[..|ops| - 1][..k] == ops[..k];
  }

  lemma StaysBefore(s: State, ops: seq<Op>, user: User)
    requires ops != []
    ensures Stays(s, ops, user)
       <==> Stays(s, ops[..|ops| - 1], user) && !DeletesAt(s, ops, |ops| - 1, user)
  {
    hide Deletes, At;
    var last := |ops| - 1;
    forall k: nat | k < last ensures DeletesAt(s, ops, k, user) <==> DeletesAt(s, ops[..last], k, user) {
      PrefixAt(s, ops, k);
    }
  }

  /** While the account stays, its records say the same exactly when they did and no merge brought in another. */
  lemma {:induction false} RunSays(s: State, ops: seq<Op>, user: User, key: string, hash: string, d: Decision)
    requires Forest(s.aliases) && IsFound(s.aliases, s.books.records, user, key) && Stays(s, ops, user)
    ensures var end := Run(s, ops);
            && IsFound(end.aliases, end.books.records, user, key)
            && (AllSay(end.aliases, end.books.records, user, key, hash, d)
                <==> AllSay(s.aliases, s.books.records, user, key, hash, d)
                     && forall k: nat :: k < |ops| ==> !BringsOtherAt(s, ops, k, user, key, hash, d))
  {
    hide Next, AllSay, BringsOther, Found, IsFound, Forest, Stays, Deletes;
    if ops != [] {
      var last := |ops| - 1;
      StaysBefore(s, ops, user);
      RunSays(s, ops[..last], user, key, hash, d);
      RunKeepsForest(s, ops[..last]);
      StepSays(Run(s, ops[..last]), ops[last], user, key, hash, d);
      forall k: nat | k < last
        ensures BringsOtherAt(s, ops, k, user, key, hash, d) <==> BringsOtherAt(s, ops[..last], k, user, key, hash, d)
      {
        PrefixAt(s, ops, k);
      }
      assert BringsOtherAt(s, ops, last, user, key, hash, d)
        <==> BringsOther(Run(s, ops[..last]), ops[last], user, key, hash, d);
    }
  }

  lemma StepKeepsShared(s: State, op: Op, u: User, v: User)
    requires Forest(s.aliases) && HasRoot(s.aliases, u) && HasRoot(s.aliases, v)
    requires Root(s.aliases, u) == Root(s.aliases, v) && !Deletes(s, op, u)
    ensures var end := Next(s, op).aliases; HasRoot(end, u) && HasRoot(end, v) && Root(end, u) == Root(end, v)
  {
    match op
    case MergeUsers(m, _) =>
      if Allowed(s.users, s.aliases, m) {
        RootAfterMerge(s.users, s.aliases, m, u);
        RootAfterMerge(s.users, s.aliases, m, v);
      }
    case DeleteAccount(w) =>
      if Deletable(s.aliases, s.books.rows, w) {
        RootAfterDeletion(s.aliases, w, u);
        RootAfterDeletion(s.aliases, w, v);
      }
    case _ =>
  }

  lemma {:induction false} SharedRootStays(s: State, ops: seq<Op>, u: User, v: User)
    requires Forest(s.aliases) && HasRoot(s.aliases, u) && HasRoot(s.aliases, v)
    requires Root(s.aliases, u) == Root(s.aliases, v) && Stays(s, ops, u)
    ensures var end := Run(s, ops).aliases; HasRoot(end, u) && HasRoot(end, v) && Root(end, u) == Root(end, v)
  {
    hide Next, HasRoot, Forest, Stays, Deletes;
    if ops != [] {
      StaysBefore(s, ops, u);
      SharedRootStays(s, ops[..|ops| - 1], u, v);
      RunKeepsForest(s, ops[..|ops| - 1]);
      StepKeepsShared(Run(s, ops[..|ops| - 1]), ops[|ops| - 1], u, v);
    }
  }

  /** An account with a row in the ledger is never deleted. */
  lemma {:induction false} RowKeepsAccount(s: State, ops: seq<Op>, user: User, i: nat)
    requires Forest(s.aliases) && i < |s.books.rows| && HasRoot(s.aliases, user)
    requires HasRoot(s.aliases, s.books.rows[i].owner)
    requires Root(s.aliases, s.books.rows[i].owner) == Root(s.aliases, user)
    ensures Stays(s, ops, user)
  {
    hide Next, Stays, Forest;
    if ops == [] {
      NoStep(s, user);
    } else {
      var last := |ops| - 1;
      var before, owner := Run(s, ops[..last]), s.books.rows[i].owner;
      RowKeepsAccount(s, ops[..last], user, i);
      SharedRootStays(s, ops[..last], user, owner);
      SettledForGood(s, ops[..last], i);
      assert before.books.rows[i].owner == owner;
      StaysBefore(s, ops, user);
      if Deletes(before, ops[last], user) {
        ClassIsSameRoot(before.aliases, ops[last].user, owner);
        assert false;
      }
    }
  }

  lemma NoStep(s: State, user: User)
    ensures Stays(s, [], user)
  {
  }

  // ----- records of allowed requests -----

  /** Every record of an allowed request has the row that was reserved for it. */
  ghost predicate Backed(b: Books) {
    forall r :: r in b.records && r.decision.allowed ==> exists i :: 0 <= i < |b.rows| && b.rows[i].owner == r.owner
  }

  lemma AdmissionKeepsBacked(t: Table, b: Books, q: Request)
    requires Backed(b)
    ensures Backed(AfterAdmit(t, b, q))
  {
    var after := AfterAdmit(t, b, q);
    forall r | r in after.records && r.decision.allowed
      ensures exists i :: 0 <= i < |after.rows| && after.rows[i].owner == r.owner
    {
      if r in b.records {
        var i :| 0 <= i < |b.rows| && b.rows[i].owner == r.owner;
        assert after.rows[i].owner == r.owner;
      } else {
        assert after.rows[|b.rows|].owner == r.owner;
      }
    }
  }

  lemma BackedStays(s: State, op: Op)
    requires Backed(s.books)
    ensures Backed(Next(s, op).books)
  {
    hide HasRoot, Class, Deletable;
    var after := Next(s, op).books;
    if op.Admit? {
      AdmissionKeepsBacked(s.aliases, s.books, op.request);
    } else {
      forall r | r in after.records && r.decision.allowed
        ensures exists i :: 0 <= i < |after.rows| && after.rows[i].owner == r.owner
      {
        var i :| 0 <= i < |s.books.rows| && s.books.rows[i].owner == r.owner;
        StepKeepsRow(s, op, i);
        assert after.rows[i].owner == r.owner;
      }
    }
  }

  /** So it is in every run from an empty ledger. */
  lemma {:induction false} RunKeepsBacked(s: State, ops: seq<Op>)
    requires Backed(s.books)
    ensures Backed(Run(s, ops).books)
  {
    hide Next, Backed;
    if ops != [] {
      RunKeepsBacked(s, ops[..|ops| - 1]);
      BackedStays(Run(s, ops[..|ops| - 1]), ops[|ops| - 1]);
    }
  }

  // ----- one decision per key -----

  lemma DecidedIsFound(t: Table, b: Books, q: Request)
    requires AnswerTo(t, b, q).Decided?
    ensures HasRoot(t, q.user) && 0.0 <= q.cost
    ensures exists r :: Found(t, AfterAdmit(t, b, q).records, q.user, q.key, r)
                        && r.decision == AnswerTo(t, b, q).decision
  {
    var after := AfterAdmit(t, b, q);
    var found := Matching(b.records, Class(t, q.user), q.key);
    if found != [] {
      assert Found(t, after.records, q.user, q.key, found[q.pick % |found|]);
    } else {
      assert Found(t, after.records, q.user, q.key, after.records[|b.records|]);
    }
  }

  /**
   * A decided admission, asked again after any run by the user or any alias: unless the account was deleted,
   * nothing changes, and the answer is the decision again, or an error for other input, exactly when all records of
   * the key said so to begin with and no merge in between brought in another one.
   */
  lemma DecidedOnce(s: State, q: Request, ops: seq<Op>, again: Request)
    requires Forest(s.aliases) && AnswerTo(s.aliases, s.books, q).Decided?
    requires again.key == q.key && 0.0 <= again.cost
    requires HasRoot(s.aliases, q.user) && HasRoot(s.aliases, again.user)
    requires Root(s.aliases, again.user) == Root(s.aliases, q.user)
    ensures var start := s.(books := AfterAdmit(s.aliases, s.books, q));
            var end := Run(start, ops);
            var d := AnswerTo(s.aliases, s.books, q).decision;
            Stays(start, ops, q.user) ==>
              && AfterAdmit(end.aliases, end.books, again) == end.books
              && (Repeats(end.aliases, end.books, again, q.bodyHash, d)
                  <==> AllSay(start.aliases, start.books.records, q.user, q.key, q.bodyHash, d)
                       && forall k: nat :: k < |ops| ==> !BringsOtherAt(start, ops, k, q.user, q.key, q.bodyHash, d))
  {
    var start := s.(books := AfterAdmit(s.aliases, s.books, q));
    var d := AnswerTo(s.aliases, s.books, q).decision;
    DecidedIsFound(s.aliases, s.books, q);
    assert IsFound(start.aliases, start.books.records, q.user, q.key);
    hide HasRoot, AnswerTo, AfterAdmit, BringsOtherAt, Class, Stays, AllSay, IsFound, Found;
    if Stays(start, ops, q.user) {
      RunSays(start, ops, q.user, q.key, q.bodyHash, d);
      SharedRootStays(start, ops, q.user, again.user);
      var end := Run(start, ops);
      SameFound(end.aliases, end.books.records, q.user, again.user, q.key, q.bodyHash, d);
      RepeatsExactly(end.aliases, end.books, again, q.bodyHash, d);
    }
  }

  lemma SameFound(t: Table, records: seq<Record>, u: User, v: User, key: string, hash: string, d: Decision)
    requires HasRoot(t, u) && HasRoot(t, v) && Root(t, u) == Root(t, v)
    ensures IsFound(t, records, u, key) <==> IsFound(t, records, v, key)
    ensures AllSay(t, records, u, key, hash, d) <==> AllSay(t, records, v, key, hash, d)
  {
    assert forall r :: Found(t, records, u, key, r) <==> Found(t, records, v, key, r);
  }

  /** The account of an allowed request is never deleted: its reservation stays in the ledger. */
  lemma AllowedStays(s: State, q: Request, ops: seq<Op>)
    requires Forest(s.aliases) && Backed(s.books)
    requires AnswerTo(s.aliases, s.books, q).Decided? && AnswerTo(s.aliases, s.books, q).decision.allowed
    ensures Stays(s.(books := AfterAdmit(s.aliases, s.books, q)), ops, q.user)
  {
    hide Stays, AnswerTo, AfterAdmit;
    var start := s.(books := AfterAdmit(s.aliases, s.books, q));
    DecidedIsFound(s.aliases, s.books, q);
    AdmissionKeepsBacked(s.aliases, s.books, q);
    var r :| Found(start.aliases, start.books.records, q.user, q.key, r)
             && r.decision == AnswerTo(s.aliases, s.books, q).decision;
    var i :| 0 <= i < |start.books.rows| && start.books.rows[i].owner == r.owner;
    ClassIsSameRoot(s.aliases, q.user, r.owner);
    RowKeepsAccount(start, ops, q.user, i);
  }

  /** A refusal holds no row: an account that could be deleted before still can be, and then the key is new again. */
  lemma RefusalForgotten(s: State, q: Request)
    requires Forest(s.aliases) && Deletable(s.aliases, s.books.rows, q.user)
    requires AnswerTo(s.aliases, s.books, q).Decided? && !AnswerTo(s.aliases, s.books, q).decision.allowed
    ensures var start := s.(books := AfterAdmit(s.aliases, s.books, q));
            var after := Next(start, DeleteAccount(q.user));
            && IsFound(start.aliases, start.books.records, q.user, q.key)
            && !IsFound(after.aliases, after.books.records, q.user, q.key)
  {
    var start := s.(books := AfterAdmit(s.aliases, s.books, q));
    DecidedIsFound(s.aliases, s.books, q);
    hide Found;
    assert start.books.rows == s.books.rows;
    StepSays(start, DeleteAccount(q.user), q.user, q.key, q.bodyHash, AnswerTo(s.aliases, s.books, q).decision);
  }

  /** A new key: its one record says so. */
  lemma NewKeySays(t: Table, b: Books, q: Request)
    requires AnswerTo(t, b, q).Decided? && HasRoot(t, q.user) && Matching(b.records, Class(t, q.user), q.key) == []
    ensures AllSay(t, AfterAdmit(t, b, q).records, q.user, q.key, q.bodyHash, AnswerTo(t, b, q).decision)
  {
    var after := AfterAdmit(t, b, q).records;
    var added := after[|b.records|];
    assert forall r :: r in b.records && r.key == q.key ==> r.owner !in Class(t, q.user);
    assert forall r :: Found(t, after, q.user, q.key, r) ==> r == added;
    DecidedIsFound(t, b, q);
  }

  /** Two users decide one key for different input, then one is merged into the other: the latter is refused. */
  lemma MergeSpoilsKey(u: User, v: User, mine: Request, theirs: Request)
    requires u != v && mine.user == v && theirs.user == u && mine.key == theirs.key
    requires mine.bodyHash != theirs.bodyHash && 0.0 <= mine.cost && 0.0 <= theirs.cost
    ensures var decided := State({u, v}, map[], AfterAdmit(map[], AfterAdmit(map[], Books([], []), theirs), mine));
            var merged := Next(decided, MergeUsers(Merge(u, v), 0));
            exists pick :: AnswerTo(merged.aliases, merged.books, Ask(mine, mine.bodyHash, pick)) == Refused(KeyReused)
  {
    hide AfterAdmit, AnswerTo, Class, Matching;
    var t: Table, m := map[], Merge(u, v);
    forall w ensures HasRoot(t, w) && Root(t, w) == w {
      SourceIsRoot(t, w);
    }
    FirstOfTwo(u, v, mine, theirs);
    var two := AfterAdmit(t, AfterAdmit(t, Books([], []), theirs), mine);
    var s := State({u, v}, t, two);
    var after := AfterMerge({u, v}, t, m);
    FoundAfterMerge(s, m, two.records, v, mine.key, two.records[0]);
    var _ := AnswerFrom(after, two, mine, mine.bodyHash, two.records[0]);
  }

  lemma FirstOfTwo(u: User, v: User, mine: Request, theirs: Request)
    requires u != v && mine.user == v && theirs.user == u && 0.0 <= mine.cost && 0.0 <= theirs.cost
    ensures var two := AfterAdmit(map[], AfterAdmit(map[], Books([], []), theirs), mine).records;
            && two != [] && two[0].owner == u && two[0].key == theirs.key && two[0].bodyHash == theirs.bodyHash
  {
    SourceIsRoot(map[], u);
    assert Matching([], Class(map[], u), theirs.key) == [];
  }
}

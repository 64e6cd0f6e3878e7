/**
 * Deleting an account: the privacy worker removes the rows of a user and all aliases from every table in one
 * transaction. The usage ledger is one of these tables, and its trigger refuses every deletion.
 */
module AccountDeletion {
  import opened Sequences
  import opened Aliases
  import opened AccountMerge
  import opened UsageLedger

  /** The users with a row, the aliases, the ledger and the idempotency records. */
  datatype State = State(users: set<User>, aliases: Table, books: Books)

  /** The records of other owners. */
  function Without(records: seq<Record>, owners: set<User>): (r: seq<Record>)
    ensures forall x :: x in r <==> x in records && x.owner !in owners
  {
    if records == [] then []
    else
      var last := records[|records| - 1];
      Without(records[..|records| - 1], owners) + if last.owner in owners then [] else [last]
  }

  /** The transaction commits exactly when the account has no row in the ledger. */
  ghost predicate Deletable(t: Table, rows: seq<Entry>, u: User) {
    HasRoot(t, u) && forall i :: 0 <= i < |rows| ==> rows[i].owner !in Class(t, u)
  }

  /** The canonical user's own row stays, marked as deleted. */
  ghost function AfterDeletion(s: State, u: User): State {
    if !Deletable(s.aliases, s.books.rows, u) then s
    else
      var owners := Class(s.aliases, u);
      State(s.users - (owners - {Root(s.aliases, u)}), s.aliases - owners,
            s.books.(records := Without(s.books.records, owners)))
  }

  class PrivateData {
    var users: set<User>
    var aliases: Table
    var rows: seq<Entry>
    var records: seq<Record>

    ghost function Value(): State
      reads this
    {
      State(users, aliases, Books(rows, records))
    }

    constructor (s: State)
      ensures Value() == s
    {
      users, aliases, rows, records := s.users, s.aliases, s.books.rows, s.books.records;
    }

    /** Other tables may refuse the deletion too; then nothing happens either. */
    method DeleteAccount(u: User) returns (done: bool)
      modifies this
      ensures done <==> Deletable(old(aliases), old(rows), u)
      ensures done <==> HasRoot(old(aliases), u) && forall e :: e in old(rows) ==> e.owner !in Class(old(aliases), u)
      ensures rows == old(rows) && (!done ==> Value() == old(Value()))
      ensures done ==>
                && (forall v :: v in aliases <==> v in old(aliases) && v !in Class(old(aliases), u))
                && (forall v :: v in aliases ==> aliases[v] == old(aliases)[v])
                && (forall v :: v in users <==> v in old(users)
                                                && (v !in Class(old(aliases), u) || v == Root(old(aliases), u)))
                && (forall x :: x in records <==> x in old(records) && x.owner !in Class(old(aliases), u))
      ensures Value() == AfterDeletion(old(Value()), u)
    {
      var ownerIds := AuthorizedOwnerIds(aliases, u);
      if ownerIds.Err? {
        return false;
      }
      var owner, owners := ownerIds.value[0], Elems(ownerIds.value);
      for i := 0 to |rows|
        invariant forall j :: 0 <= j < i ==> rows[j].owner !in owners
        invariant Value() == old(Value())
      {
        if rows[i].owner in owners {
          return false;
        }
      }
      var kept := [];
      for i := 0 to |records|
        invariant kept == Without(records[..i], owners)
        invariant Value() == old(Value())
      {
        assert records[..i + 1][..i] == records[..i];
        if records[i].owner !in owners {
          kept := kept + [records[i]];
        }
      }
      assert records[..|records|] == records;
      records := kept;
      aliases := aliases - owners;
      users := users - (owners - {owner});
      done := true;
    }
  }

  // ----- the aliases that are left -----

  /** A chain that avoids the removed users is as before. */
  lemma {:induction false} ChainForgets(t: Table, owners: set<User>, v: User, n: nat)
    requires forall m: nat :: Up(t, v, m) !in owners
    ensures Up(t - owners, v, n) == Up(t, v, n)
    decreases n
  {
    if n != 0 && v in t {
      assert Up(t, v, 0) == v;
      forall m: nat ensures Up(t, t[v], m) !in owners {
        assert Up(t, v, m + 1) == Up(t, t[v], m);
      }
      ChainForgets(t, owners, t[v], n - 1);
    }
  }

  /** Every removed user is canonical by itself; all others keep their canonical user. */
  lemma RootAfterDeletion(t: Table, u: User, v: User)
    requires HasRoot(t, u) && HasRoot(t, v)
    ensures var after := t - Class(t, u);
            HasRoot(after, v) && Root(after, v) == if Root(t, v) == Root(t, u) then v else Root(t, v)
  {
    var owners := Class(t, u);
    ClassIsSameRoot(t, u, v);
    if v in owners {
      SourceIsRoot(t - owners, v);
    } else {
      forall m: nat ensures Up(t, v, m) !in owners {
        RootAbove(t, v, m);
        ClassIsSameRoot(t, u, Up(t, v, m));
      }
      var n: nat :| Up(t, v, n) == Root(t, v);
      ChainForgets(t, owners, v, n);
      RootIs(t - owners, v, Root(t, v));
    }
  }

  lemma DeletionKeepsForest(t: Table, u: User)
    requires Forest(t)
    ensures Forest(t - Class(t, u))
  {
    forall v ensures HasRoot(t - Class(t, u), v) {
      assert HasRoot(t, u) && HasRoot(t, v);
      RootAfterDeletion(t, u, v);
    }
  }

  /** The deleted account falls apart into its users; every other account stays whole. */
  lemma ClassAfterDeletion(t: Table, u: User, v: User)
    requires Forest(t)
    ensures HasRoot(t, u) && HasRoot(t, v) && HasRoot(t - Class(t, u), v)
    ensures Class(t - Class(t, u), v) == if v in Class(t, u) then {v} else Class(t, v)
  {
    assert HasRoot(t, u) && HasRoot(t, v);
    var after := t - Class(t, u);
    DeletionKeepsForest(t, u);
    assert HasRoot(after, v);
    var expected := if v in Class(t, u) then {v} else Class(t, v);
    forall w ensures w in Class(after, v) <==> w in expected {
      assert HasRoot(t, w) && HasRoot(after, w);
      RootAfterDeletion(t, u, v);
      RootAfterDeletion(t, u, w);
      ClassIsSameRoot(t, u, v);
      ClassIsSameRoot(t, u, w);
      ClassIsSameRoot(t, v, w);
      ClassIsSameRoot(after, v, w);
    }
  }
}

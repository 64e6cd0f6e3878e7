/**
 * Merging one user account into another: `merge_users` adds an alias, hands over the rows of the source
 * user and marks it merged, all in one transaction.
 */
module AccountMerge {
  import opened Aliases
  import opened Wrappers

  datatype Status = Active | Merged | Other(name: string)

  /** A row of one of the three tables whose rows change hands: identities, consents, login sessions. */
  datatype Row = Row(id: string, owner: User)

  /** A chain without an end, or a constraint of the tables. */
  datatype MergeError = NoCanonicalUser | IntegrityError

  /** One request to merge `source` into `target`. */
  datatype Merge = Merge(source: User, target: User)

  /**
   * When the transaction commits: the target's chain ends, the source is not an alias already (primary key),
   * both ends of the new alias are users (foreign keys), and it does not point to itself (check constraint).
   */
  ghost predicate Allowed(users: set<User>, t: Table, m: Merge) {
    && HasRoot(t, m.target)
    && m.source !in t
    && m.source in users && Root(t, m.target) in users
    && m.source != Root(t, m.target)
  }

  function HandedOver(rows: seq<Row>, source: User, target: User): (r: seq<Row>)
    ensures |r| == |rows|
  {
    seq(|rows|, i requires 0 <= i < |rows| =>
      if rows[i].owner == source then rows[i].(owner := target) else rows[i])
  }

  /** The rows of the source belong to the target, and nothing else has changed. */
  predicate PassesOn(before: seq<Row>, source: User, target: User, after: seq<Row>) {
    && |after| == |before|
    && forall i :: 0 <= i < |before| ==>
                     after[i] == Row(before[i].id, if before[i].owner == source then target else before[i].owner)
  }

  class Accounts {
    var users: map<User, Status>
    var aliases: Table
    var identities: seq<Row>
    var consents: seq<Row>
    var sessions: seq<Row>

    constructor (users: map<User, Status>, identities: seq<Row>, consents: seq<Row>, sessions: seq<Row>)
      ensures this.users == users && aliases == map[]
      ensures this.identities == identities && this.consents == consents && this.sessions == sessions
    {
      this.users, aliases := users, map[];
      this.identities, this.consents, this.sessions := identities, consents, sessions;
    }

    /** An error is what the caller sees raised; the transaction is then rolled back. */
    method MergeUsers(m: Merge) returns (r: Result<(), MergeError>)
      modifies this
      ensures r.Ok? <==> old(Allowed(users.Keys, aliases, m))
      ensures r.Ok? <==> old(HasRoot(aliases, m.target) && m.source !in aliases && m.source in users
                             && Root(aliases, m.target) in users && Root(aliases, m.target) != m.source)
      ensures r.Ok? ==>
                var root := old(Root(aliases, m.target));
                && aliases == old(aliases)[m.source := root] && PassesOn(old(identities), m.source, root, identities)
                && PassesOn(old(consents), m.source, root, consents)
                && PassesOn(old(sessions), m.source, root, sessions)
      ensures r.Err? ==> unchanged(this) && (r.error == NoCanonicalUser <==> !old(HasRoot(aliases, m.target)))
      ensures r.Ok? ==> users == old(users)[m.source := Merged]
      ensures users.Keys == old(users.Keys)
      ensures aliases == old(AfterMerge(users.Keys, aliases, m))
      ensures identities == old(RowsAfter(users.Keys, aliases, identities, m))
      ensures consents == old(RowsAfter(users.Keys, aliases, consents, m))
      ensures sessions == old(RowsAfter(users.Keys, aliases, sessions, m))
    {
      var found := CanonicalUserId(aliases, m.target);
      if found.Err? {
        return Err(NoCanonicalUser);
      }
      var target := found.value;
      if m.source in aliases || m.source == target || m.source !in users || target !in users {
        return Err(IntegrityError);
      }
      aliases := aliases[m.source := target];
      identities := Handover(identities, m.source, target);
      consents := Handover(consents, m.source, target);
      sessions := Handover(sessions, m.source, target);
      users := users[m.source := Merged];
      r := Ok(());
    }
  }

  /** One `UPDATE ... SET owner_user_id = target WHERE owner_user_id = source`. */
  method Handover(rows: seq<Row>, source: User, target: User) returns (r: seq<Row>)
    ensures r == HandedOver(rows, source, target)
  {
    r := rows;
    for i := 0 to |rows|
      invariant |r| == |rows|
      invariant forall j :: 0 <= j < i ==> r[j] == HandedOver(rows, source, target)[j]
      invariant forall j :: i <= j < |rows| ==> r[j] == rows[j]
    {
      if r[i].owner == source {
        r := r[i := r[i].(owner := target)];
      }
    }
  }

  // ----- what one merge does to the chains -----

  ghost function AfterMerge(users: set<User>, t: Table, m: Merge): Table {
    if Allowed(users, t, m) then t[m.source := Root(t, m.target)] else t
  }

  /** The canonical user of `u` once `m` is committed. */
  ghost function NewRoot(t: Table, m: Merge, u: User): User
    requires HasRoot(t, m.target) && HasRoot(t, u)
  {
    if Root(t, u) == m.source then Root(t, m.target) else Root(t, u)
  }

  /** A chain that avoids the new alias is as before. */
  lemma {:induction false} ChainKept(t: Table, s: User, r: User, u: User, n: nat)
    requires s !in t
    ensures Up(t[s := r], u, n) == Up(t, u, n) || Up(t, u, n) == s
    decreases n
  {
    if n != 0 && u in t {
      ChainKept(t, s, r, t[u], n - 1);
    }
  }

  /** A chain that ended at the new alias goes on from there. */
  lemma {:induction false} ChainReaches(t: Table, s: User, r: User, u: User, n: nat)
    requires s !in t && Up(t, u, n) == s
    ensures Reaches(t[s := r], u, s)
    decreases n
  {
    if n != 0 && u in t {
      ChainReaches(t, s, r, t[u], n - 1);
      ReachesFromBelow(t[s := r], u, s);
    } else {
      ReachesItself(t[s := r], s);
    }
  }

  lemma RootIs(t: Table, u: User, r: User)
    requires r !in t && Reaches(t, u, r)
    ensures HasRoot(t, u) && Root(t, u) == r
  {
    RootUnique(t, u, Root(t, u), r);
  }

  /** A merge changes the canonical user of the source's class only, to the target's root. */
  lemma RootAfterMerge(users: set<User>, t: Table, m: Merge, u: User)
    requires Allowed(users, t, m) && HasRoot(t, u)
    ensures HasRoot(AfterMerge(users, t, m), u)
    ensures Root(AfterMerge(users, t, m), u) == NewRoot(t, m, u)
  {
    var r := Root(t, m.target);
    var after := t[m.source := r];
    var n: nat :| Up(t, u, n) == Root(t, u);
    if Root(t, u) == m.source {
      ChainReaches(t, m.source, r, u, n);
      var k: nat :| Up(after, u, k) == m.source;
      UpAdds(after, u, k, 1);
      assert Up(after, m.source, 1) == r;
      assert Reaches(after, u, r);
      RootIs(after, u, r);
    } else {
      ChainKept(t, m.source, r, u, n);
      RootIs(after, u, Root(t, u));
    }
  }

  /** After a merge the class of the target is the union of the two; every other class is as before. */
  lemma ClassAfterMerge(users: set<User>, t: Table, m: Merge, u: User)
    requires Forest(t) && Allowed(users, t, m) && HasRoot(t, u)
    ensures var after := AfterMerge(users, t, m);
            && HasRoot(after, u)
            && Class(after, u) == if u in Class(t, m.source) || u in Class(t, m.target)
                                  then Class(t, m.source) + Class(t, m.target)
                                  else Class(t, u)
  {
    var after := AfterMerge(users, t, m);
    SourceIsRoot(t, m.source);
    RootAfterMerge(users, t, m, u);
    ClassIsSameRoot(t, m.source, u);
    ClassIsSameRoot(t, m.target, u);
    var expected := if u in Class(t, m.source) || u in Class(t, m.target)
                    then Class(t, m.source) + Class(t, m.target) else Class(t, u);
    forall v ensures v in Class(after, u) <==> v in expected {
      assert HasRoot(t, v);
      RootAfterMerge(users, t, m, v);
      ClassIsSameRoot(after, u, v);
      ClassIsSameRoot(t, u, v);
      ClassIsSameRoot(t, m.source, v);
      ClassIsSameRoot(t, m.target, v);
    }
  }

  lemma SourceIsRoot(t: Table, s: User)
    requires s !in t
    ensures HasRoot(t, s) && Root(t, s) == s
  {
    ReachesItself(t, s);
    RootIs(t, s, s);
  }

  // ----- all runs -----

  ghost function AfterMerges(users: set<User>, t: Table, ms: seq<Merge>): Table
    decreases |ms|
  {
    if ms == [] then t else AfterMerges(users, AfterMerge(users, t, ms[0]), ms[1..])
  }

  /** No sequence of merges makes a chain that does not end. */
  lemma {:induction false} MergesKeepForest(users: set<User>, t: Table, ms: seq<Merge>)
    requires Forest(t)
    ensures Forest(AfterMerges(users, t, ms))
    decreases |ms|
  {
    if ms != [] {
      var after := AfterMerge(users, t, ms[0]);
      if Allowed(users, t, ms[0]) {
        forall u ensures HasRoot(after, u) {
          assert HasRoot(t, u);
          RootAfterMerge(users, t, ms[0], u);
        }
      }
      MergesKeepForest(users, after, ms[1..]);
    }
  }

  /** From an empty alias table, `CanonicalUserId` never raises, whatever was merged with whatever. */
  lemma CanonicalNeverRaises(users: set<User>, ms: seq<Merge>, u: User)
    ensures HasRoot(AfterMerges(users, map[], ms), u)
  {
    forall v ensures HasRoot(map[], v) {
      assert Up(map[], v, 0) == v;
    }
    MergesKeepForest(users, map[], ms);
  }

  /** Two users with the same canonical user keep sharing it. */
  lemma {:induction false} SameRootStays(users: set<User>, t: Table, ms: seq<Merge>, u: User, v: User)
    requires Forest(t) && HasRoot(t, u) && HasRoot(t, v) && Root(t, u) == Root(t, v)
    ensures var after := AfterMerges(users, t, ms);
            HasRoot(after, u) && HasRoot(after, v) && Root(after, u) == Root(after, v)
    decreases |ms|
  {
    if ms != [] {
      if Allowed(users, t, ms[0]) {
        RootAfterMerge(users, t, ms[0], u);
        RootAfterMerge(users, t, ms[0], v);
      }
      var one := ms[..1];
      assert AfterMerges(users, t, one) == AfterMerge(users, t, ms[0]);
      MergesKeepForest(users, t, one);
      SameRootStays(users, AfterMerge(users, t, ms[0]), ms[1..], u, v);
    }
  }

  // ----- the rows that change hands -----

  /** No row belongs to an alias. */
  ghost predicate OwnedByRoots(t: Table, rows: seq<Row>) {
    forall i :: 0 <= i < |rows| ==> rows[i].owner !in t
  }

  ghost function RowsAfter(users: set<User>, t: Table, rows: seq<Row>, m: Merge): seq<Row> {
    if Allowed(users, t, m) then HandedOver(rows, m.source, Root(t, m.target)) else rows
  }

  /** Handing over the source's rows keeps every row with the canonical user of its owner, and no other. */
  lemma RowsFollowTheirOwner(users: set<User>, t: Table, rows: seq<Row>, m: Merge)
    requires OwnedByRoots(t, rows)
    ensures var after := AfterMerge(users, t, m);
            && |RowsAfter(users, t, rows, m)| == |rows|
            && OwnedByRoots(after, RowsAfter(users, t, rows, m))
            && forall i :: 0 <= i < |rows| ==>
                             && RowsAfter(users, t, rows, m)[i].id == rows[i].id
                             && HasRoot(after, rows[i].owner)
                             && RowsAfter(users, t, rows, m)[i].owner == Root(after, rows[i].owner)
  {
    var after := AfterMerge(users, t, m);
    forall i | 0 <= i < |rows|
      ensures HasRoot(after, rows[i].owner) && RowsAfter(users, t, rows, m)[i].owner == Root(after, rows[i].owner)
    {
      SourceIsRoot(t, rows[i].owner);
      if Allowed(users, t, m) {
        RootAfterMerge(users, t, m, rows[i].owner);
      }
    }
  }
}

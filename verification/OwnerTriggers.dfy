/**
 * The two database tests that a resume or a bullet refers only to things of the same canonical owner:
 * SQLite asks whether the two chains of owners meet, PostgreSQL whether they end in the same user.
 */
module OwnerTriggers {
  import opened Wrappers
  import opened Aliases
  import opened AccountMerge

  /** The recursive query with UNION: rows are added until the next one is there already. */
  function Chain(t: Table, u: User, found: set<User>): set<User>
    decreases t.Keys - found
  {
    if u in found then found
    else if u !in t then found + {u}
    else
      assert u in t.Keys - found;
      Chain(t, t[u], found + {u})
  }

  function OwnerChain(t: Table, u: User): set<User> {
    Chain(t, u, {})
  }

  /** PostgreSQL's `canonical_owner`: the chain's member that is no alias; NULL when there is none. */
  ghost function CanonicalOwner(t: Table, u: User): Option<User> {
    if exists x :: x in OwnerChain(t, u) && x !in t
    then var x :| x in OwnerChain(t, u) && x !in t; Some(x)
    else None
  }

  predicate ChainsMeet(t: Table, u: User, v: User) {
    OwnerChain(t, u) * OwnerChain(t, v) != {}
  }

  /** Not IS DISTINCT FROM: two NULLs count as the same. */
  ghost predicate SameCanonicalOwner(t: Table, u: User, v: User) {
    CanonicalOwner(t, u) == CanonicalOwner(t, v)
  }

  /** A row that a trigger guards, with the owners of what it refers to. */
  datatype Reference =
    | Resume(owner: User, baseOwner: Option<User>, jobOwner: Option<User>)
    | BulletFact(owner: User, factOwner: User)

  predicate SqliteAccepts(t: Table, r: Reference) {
    match r
    case Resume(owner, baseOwner, jobOwner) =>
      && (baseOwner.Some? ==> ChainsMeet(t, owner, baseOwner.value))
      && (jobOwner.Some? ==> ChainsMeet(t, owner, jobOwner.value))
    case BulletFact(owner, factOwner) => ChainsMeet(t, owner, factOwner)
  }

  ghost predicate PostgresAccepts(t: Table, r: Reference) {
    match r
    case Resume(owner, baseOwner, jobOwner) =>
      && (baseOwner.Some? ==> SameCanonicalOwner(t, owner, baseOwner.value))
      && (jobOwner.Some? ==> SameCanonicalOwner(t, owner, jobOwner.value))
    case BulletFact(owner, factOwner) => SameCanonicalOwner(t, owner, factOwner)
  }

  // ----- the recursive query finds exactly the chain -----

  lemma {:induction false} ChainOnlyAdds(t: Table, u: User, found: set<User>)
    ensures found + {u} <= Chain(t, u, found)
    decreases t.Keys - found
  {
    if u !in found && u in t {
      assert u in t.Keys - found;
      ChainOnlyAdds(t, t[u], found + {u});
    }
  }

  /** What the query adds is on the chain. */
  lemma {:induction false} ChainIsReached(t: Table, u: User, found: set<User>, x: User)
    requires x in Chain(t, u, found)
    ensures x in found || Reaches(t, u, x)
    decreases t.Keys - found
  {
    if x == u {
      ReachesItself(t, u);
    } else if u !in found && u in t {
      assert u in t.Keys - found;
      ChainIsReached(t, t[u], found + {u}, x);
      if x !in found {
        ReachesFromBelow(t, u, x);
      }
    }
  }

  /** What the query finds is closed under one more step, when all found before but the last was. */
  lemma {:induction false} ChainIsClosed(t: Table, u: User, found: set<User>)
    requires forall x :: x in found && x in t ==> t[x] in found + {u}
    ensures forall x :: x in Chain(t, u, found) && x in t ==> t[x] in Chain(t, u, found)
    decreases t.Keys - found
  {
    if u !in found && u in t {
      assert u in t.Keys - found;
      ChainIsClosed(t, t[u], found + {u});
    }
  }

  lemma {:induction false} ClosedHoldsChain(t: Table, s: set<User>, u: User, n: nat)
    requires u in s && forall x :: x in s && x in t ==> t[x] in s
    ensures Up(t, u, n) in s
    decreases n
  {
    if n != 0 && u in t {
      ClosedHoldsChain(t, s, t[u], n - 1);
    }
  }

  lemma OwnerChainIsUp(t: Table, u: User, x: User)
    ensures x in OwnerChain(t, u) <==> Reaches(t, u, x)
  {
    ChainOnlyAdds(t, u, {});
    ChainIsClosed(t, u, {});
    if x in OwnerChain(t, u) {
      ChainIsReached(t, u, {}, x);
    }
    if Reaches(t, u, x) {
      var n: nat :| Up(t, u, n) == x;
      ClosedHoldsChain(t, OwnerChain(t, u), u, n);
    }
  }

  // ----- the two tests -----

  /** PostgreSQL's function and Python's `canonical_user_id` agree on every table, also one with a cycle. */
  lemma CanonicalOwnerIsRoot(t: Table, u: User)
    ensures CanonicalOwner(t, u) == if HasRoot(t, u) then Some(Root(t, u)) else None
  {
    if HasRoot(t, u) {
      OwnerChainIsUp(t, u, Root(t, u));
      var x := CanonicalOwner(t, u).value;
      OwnerChainIsUp(t, u, x);
      RootIs(t, u, x);
    } else if x :| x in OwnerChain(t, u) && x !in t {
      OwnerChainIsUp(t, u, x);
      assert false;
    }
  }

  /** Two chains that meet end alike. */
  lemma MeetingChainsEndAlike(t: Table, u: User, v: User)
    requires ChainsMeet(t, u, v)
    ensures HasRoot(t, u) <==> HasRoot(t, v)
    ensures HasRoot(t, u) ==> Root(t, u) == Root(t, v)
  {
    var x :| x in OwnerChain(t, u) && x in OwnerChain(t, v);
    OwnerChainIsUp(t, u, x);
    OwnerChainIsUp(t, v, x);
    EndsAbove(t, u, x);
    EndsAbove(t, v, x);
  }

  lemma EndsAbove(t: Table, u: User, x: User)
    requires Reaches(t, u, x)
    ensures HasRoot(t, u) <==> HasRoot(t, x)
    ensures HasRoot(t, u) ==> Root(t, u) == Root(t, x)
  {
    var n: nat :| Up(t, u, n) == x;
    if HasRoot(t, u) {
      RootAbove(t, u, n);
    }
    if HasRoot(t, x) {
      var m: nat :| Up(t, x, m) !in t;
      UpAdds(t, u, n, m);
      assert Up(t, u, n + m) !in t;
    }
  }

  /** On any alias table: the tests differ exactly on two chains without an end that do not meet. */
  lemma TestsAgreeExactly(t: Table, u: User, v: User)
    ensures SameCanonicalOwner(t, u, v) <==> ChainsMeet(t, u, v) || !(HasRoot(t, u) || HasRoot(t, v))
  {
    CanonicalOwnerIsRoot(t, u);
    CanonicalOwnerIsRoot(t, v);
    if ChainsMeet(t, u, v) {
      MeetingChainsEndAlike(t, u, v);
    }
    if HasRoot(t, u) && HasRoot(t, v) && Root(t, u) == Root(t, v) {
      OwnerChainIsUp(t, u, Root(t, u));
      OwnerChainIsUp(t, v, Root(t, v));
      assert Root(t, u) in OwnerChain(t, u) * OwnerChain(t, v);
    }
  }

  /** Where every chain ends both databases accept the same rows. */
  lemma TriggersAgreeOn(t: Table, r: Reference)
    requires Forest(t)
    ensures SqliteAccepts(t, r) <==> PostgresAccepts(t, r)
  {
    assert HasRoot(t, r.owner);
    match r
    case Resume(owner, baseOwner, jobOwner) =>
      if baseOwner.Some? {
        TestsAgreeExactly(t, owner, baseOwner.value);
      }
      if jobOwner.Some? {
        TestsAgreeExactly(t, owner, jobOwner.value);
      }
    case BulletFact(owner, factOwner) =>
      TestsAgreeExactly(t, owner, factOwner);
  }

  /** Which rows these are: everything a row refers to belongs to the canonical owner of the row. */
  lemma AcceptedExactly(t: Table, r: Reference)
    requires Forest(t)
    ensures HasRoot(t, r.owner) && forall u :: u in Referred(r) ==> HasRoot(t, u)
    ensures SqliteAccepts(t, r) <==> forall u :: u in Referred(r) ==> Root(t, u) == Root(t, r.owner)
    ensures PostgresAccepts(t, r) <==> forall u :: u in Referred(r) ==> Root(t, u) == Root(t, r.owner)
  {
    assert HasRoot(t, r.owner);
    TriggersAgreeOn(t, r);
    CanonicalOwnerIsRoot(t, r.owner);
    forall u | u in Referred(r) ensures CanonicalOwner(t, u) == Some(Root(t, u)) {
      CanonicalOwnerIsRoot(t, u);
    }
    hide CanonicalOwner, SqliteAccepts;
    assert forall u :: u in Referred(r) ==> HasRoot(t, u);
    match r
    case Resume(_, baseOwner, jobOwner) =>
      assert baseOwner.Some? ==> baseOwner.value in Referred(r);
      assert jobOwner.Some? ==> jobOwner.value in Referred(r);
    case BulletFact(_, factOwner) =>
      assert factOwner in Referred(r);
  }

  /** The owners of what a row refers to. */
  function Referred(r: Reference): set<User> {
    match r
    case Resume(_, Some(base), Some(job)) => {base, job}
    case Resume(_, Some(base), None) => {base}
    case Resume(_, None, Some(job)) => {job}
    case Resume(_, None, None) => {}
    case BulletFact(_, fact) => {fact}
  }

  /** On every table that merges can make, both databases accept the same rows. */
  lemma TriggersAgree(users: set<User>, ms: seq<Merge>, r: Reference)
    ensures var t := AfterMerges(users, map[], ms);
            SqliteAccepts(t, r) <==> PostgresAccepts(t, r)
  {
    var t := AfterMerges(users, map[], ms);
    forall u ensures HasRoot(t, u) {
      CanonicalNeverRaises(users, ms, u);
    }
    TriggersAgreeOn(t, r);
  }

  /** Two pairs of users, each an alias of the other: PostgreSQL takes all four for one owner, SQLite does not. */
  lemma CyclesTellThemApart(a: User, b: User, c: User, d: User)
    requires a != b && c != d && {a, b} !! {c, d}
    ensures var t := map[a := b, b := a, c := d, d := c];
            PostgresAccepts(t, BulletFact(a, c)) && !SqliteAccepts(t, BulletFact(a, c))
  {
    var t := map[a := b, b := a, c := d, d := c];
    StaysIn(t, {a, b}, a);
    StaysIn(t, {c, d}, c);
    TestsAgreeExactly(t, a, c);
    if ChainsMeet(t, a, c) {
      var x :| x in OwnerChain(t, a) && x in OwnerChain(t, c);
      OwnerChainIsUp(t, a, x);
      OwnerChainIsUp(t, c, x);
      assert false;
    }
  }

  /** A chain never leaves a set of aliases of one another. */
  lemma StaysIn(t: Table, s: set<User>, u: User)
    requires u in s && s <= t.Keys && forall x :: x in s ==> t[x] in s
    ensures !HasRoot(t, u)
    ensures forall x :: Reaches(t, u, x) ==> x in s
  {
    forall n: nat ensures Up(t, u, n) in s {
      ClosedHoldsChain(t, s, u, n);
    }
  }

  // ----- references over time -----

  lemma MeetingStays(users: set<User>, t: Table, ms: seq<Merge>, u: User, v: User)
    requires Forest(t) && ChainsMeet(t, u, v)
    ensures ChainsMeet(AfterMerges(users, t, ms), u, v)
  {
    var after := AfterMerges(users, t, ms);
    MeetingChainsEndAlike(t, u, v);
    assert HasRoot(t, u) && HasRoot(t, v);
    SameRootStays(users, t, ms, u, v);
    TestsAgreeExactly(after, u, v);
    CanonicalOwnerIsRoot(after, u);
    CanonicalOwnerIsRoot(after, v);
  }

  lemma SqliteStaysAccepted(users: set<User>, t: Table, ms: seq<Merge>, r: Reference)
    requires Forest(t) && SqliteAccepts(t, r)
    ensures SqliteAccepts(AfterMerges(users, t, ms), r)
  {
    match r
    case Resume(owner, baseOwner, jobOwner) =>
      if baseOwner.Some? {
        MeetingStays(users, t, ms, owner, baseOwner.value);
      }
      if jobOwner.Some? {
        MeetingStays(users, t, ms, owner, jobOwner.value);
      }
    case BulletFact(owner, factOwner) =>
      MeetingStays(users, t, ms, owner, factOwner);
  }

  /** A row that either database accepted is accepted by both after any later merges. */
  lemma AcceptedStaysAccepted(users: set<User>, t: Table, ms: seq<Merge>, r: Reference)
    requires Forest(t) && (SqliteAccepts(t, r) || PostgresAccepts(t, r))
    ensures SqliteAccepts(AfterMerges(users, t, ms), r) && PostgresAccepts(AfterMerges(users, t, ms), r)
  {
    TriggersAgreeOn(t, r);
    SqliteStaysAccepted(users, t, ms, r);
    MergesKeepForest(users, t, ms);
    TriggersAgreeOn(AfterMerges(users, t, ms), r);
  }
}

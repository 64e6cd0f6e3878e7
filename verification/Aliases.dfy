/**
 * User aliases after account merges: each alias points to the user that replaced it, and the user at the
 * end of the chain is the canonical one.
 */
module Aliases {
  import opened Sequences
  import opened Wrappers

  /** A user id; ids are compared by their place in the order in which they sort. */
  datatype User = User(rank: int)

  /** The alias table: its primary key is the alias. */
  type Table = map<User, User>

  /** The user `n` steps up the chain from `u`, or the end of the chain if it is nearer. */
  function Up(t: Table, u: User, n: nat): User
    decreases n
  {
    if n == 0 || u !in t then u else Up(t, t[u], n - 1)
  }

  /** `r` is where the chain from `u` ends. */
  ghost predicate RootOf(t: Table, u: User, r: User) {
    r !in t && exists n: nat :: Up(t, u, n) == r
  }

  ghost predicate HasRoot(t: Table, u: User) {
    exists n: nat :: Up(t, u, n) !in t
  }

  /** Every chain ends: the aliases form a forest. */
  ghost predicate Forest(t: Table) {
    forall u: User :: HasRoot(t, u)
  }

  ghost function Root(t: Table, u: User): (r: User)
    requires HasRoot(t, u)
    ensures RootOf(t, u, r)
  {
    var n: nat :| Up(t, u, n) !in t;
    Up(t, u, n)
  }

  // ----- chains -----

  lemma {:induction false} UpAdds(t: Table, u: User, n: nat, m: nat)
    ensures Up(t, Up(t, u, n), m) == Up(t, u, n + m)
    decreases n
  {
    if n != 0 && u in t {
      UpAdds(t, t[u], n - 1, m);
    }
  }

  /** A chain ends in one place. */
  lemma RootUnique(t: Table, u: User, r: User, s: User)
    requires RootOf(t, u, r) && RootOf(t, u, s)
    ensures r == s
  {
    var n: nat, m: nat :| Up(t, u, n) == r && Up(t, u, m) == s;
    if n <= m {
      UpAdds(t, u, n, m - n);
    } else {
      UpAdds(t, u, m, n - m);
    }
  }

  /** All users of a chain share its end. */
  lemma RootAbove(t: Table, u: User, n: nat)
    requires HasRoot(t, u)
    ensures HasRoot(t, Up(t, u, n)) && Root(t, Up(t, u, n)) == Root(t, u)
  {
    var m: nat :| Up(t, u, m) !in t;
    UpAdds(t, u, n, m);
    UpAdds(t, u, m, n);
    assert Up(t, Up(t, u, m), n) == Up(t, u, m);
    assert Up(t, Up(t, u, n), m) == Up(t, u, m);
    assert RootOf(t, Up(t, u, n), Up(t, u, m)) && RootOf(t, u, Up(t, u, m));
    RootUnique(t, u, Root(t, u), Up(t, u, m));
    RootUnique(t, Up(t, u, n), Root(t, Up(t, u, n)), Up(t, u, m));
  }

  /** A chain that meets itself never ends. */
  lemma {:induction false} CycleHasNoEnd(t: Table, u: User, i: nat, j: nat, n: nat)
    requires j < i && Up(t, u, i) == Up(t, u, j) && forall k :: 0 <= k < i ==> Up(t, u, k) in t
    ensures Up(t, u, n) in t
    decreases n
  {
    if n >= i {
      UpAdds(t, u, i, n - i);
      UpAdds(t, u, j, n - i);
      CycleHasNoEnd(t, u, i, j, n - (i - j));
    }
  }

  // ----- canonical_user_id -----

  datatype AliasError = AliasCycle

  /** Follows the chain with a set of users seen; a chain without an end is an error. */
  method CanonicalUserId(t: Table, userId: User) returns (r: Result<User, AliasError>)
    ensures r.Ok? <==> HasRoot(t, userId)
    ensures r.Ok? ==> r.value == Root(t, userId)
  {
    var current := userId;
    var seen: set<User> := {};
    ghost var i: nat := 0;
    while current !in seen
      invariant current == Up(t, userId, i)
      invariant seen == set k | 0 <= k < i :: Up(t, userId, k)
      invariant forall k :: 0 <= k < i ==> Up(t, userId, k) in t
      decreases t.Keys - seen
    {
      seen := seen + {current};
      if current !in t {
        assert RootOf(t, userId, current);
        RootUnique(t, userId, Root(t, userId), current);
        return Ok(current);
      }
      UpAdds(t, userId, i, 1);
      assert Up(t, current, 1) == t[current];
      current := t[current];
      i := i + 1;
    }
    ghost var j :| 0 <= j < i && Up(t, userId, j) == current;
    forall n: nat ensures Up(t, userId, n) in t {
      CycleHasNoEnd(t, userId, i, j, n);
    }
    return Err(AliasCycle);
  }

  // ----- authorized_owner_ids -----

  /** The users that share `u`'s canonical user and have ever been merged, with that user itself. */
  ghost function Class(t: Table, u: User): set<User>
    requires HasRoot(t, u)
  {
    {Root(t, u)} + set v | v in t && HasRoot(t, v) && Root(t, v) == Root(t, u)
  }

  /** No class leaves out a user with the same canonical user: one that is no alias is canonical itself. */
  lemma ClassIsSameRoot(t: Table, u: User, v: User)
    requires HasRoot(t, u)
    ensures v in Class(t, u) <==> HasRoot(t, v) && Root(t, v) == Root(t, u)
  {
    assert RootOf(t, Root(t, u), Root(t, u)) by { assert Up(t, Root(t, u), 0) == Root(t, u); }
    assert HasRoot(t, Root(t, u));
    RootUnique(t, Root(t, u), Root(t, Root(t, u)), Root(t, u));
    if v !in t {
      assert Up(t, v, 0) == v;
      assert RootOf(t, v, v);
      RootUnique(t, v, Root(t, v), v);
    }
  }

  /** A set that contains every alias of its members contains all users below them. */
  lemma {:induction false} ClosedBelow(t: Table, owners: set<User>, v: User, n: nat)
    requires forall a :: a in t && t[a] in owners ==> a in owners
    requires Up(t, v, n) in owners
    ensures v in owners
    decreases n
  {
    if n != 0 && v in t {
      ClosedBelow(t, owners, t[v], n - 1);
    }
  }

  predicate Ascending(s: seq<User>) {
    forall i, j :: 0 <= i < j < |s| ==> s[i].rank < s[j].rank
  }

  lemma {:induction false} LeastExists(s: set<User>)
    requires s != {}
    ensures exists m :: m in s && forall x :: x in s ==> m.rank <= x.rank
  {
    var y :| y in s;
    var rest := s - {y};
    if rest == {} {
      assert s == {y};
    } else {
      LeastExists(rest);
      var m :| m in rest && forall x :: x in rest ==> m.rank <= x.rank;
      var least := if y.rank < m.rank then y else m;
      forall x | x in s ensures least.rank <= x.rank {
        assert x == y || x in rest;
      }
    }
  }

  /** Python's `sorted` on a set. */
  method Sorted(s: set<User>) returns (r: seq<User>)
    ensures Ascending(r) && Elems(r) == s
  {
    r := [];
    var rest := s;
    while rest != {}
      invariant Ascending(r) && Elems(r) + rest == s
      invariant forall i, x :: 0 <= i < |r| && x in rest ==> r[i].rank < x.rank
      decreases rest
    {
      LeastExists(rest);
      var m :| m in rest && forall x :: x in rest ==> m.rank <= x.rank;
      assert Elems(r + [m]) == Elems(r) + {m};
      r := r + [m];
      rest := rest - {m};
    }
  }

  /** The chain from `v` passes through `r`. */
  ghost predicate Reaches(t: Table, v: User, r: User) {
    exists n: nat :: Up(t, v, n) == r
  }

  lemma ReachesItself(t: Table, r: User)
    ensures Reaches(t, r, r)
  {
    assert Up(t, r, 0) == r;
  }

  lemma ReachesFromBelow(t: Table, a: User, r: User)
    requires a in t && Reaches(t, t[a], r)
    ensures Reaches(t, a, r)
  {
    var n: nat :| Up(t, t[a], n) == r;
    assert Up(t, a, n + 1) == r;
  }

  /** Breadth first along reversed aliases: the canonical user first, then all others of the class in order. */
  method AuthorizedOwnerIds(t: Table, userId: User) returns (r: Result<seq<User>, AliasError>)
    ensures r.Ok? <==> HasRoot(t, userId)
    ensures r.Ok? ==>
              && r.value != [] && r.value[0] == Root(t, userId)
              && Ascending(r.value[1..]) && r.value[0] !in r.value[1..]
              && Elems(r.value) == Class(t, userId)
  {
    var canonical :- CanonicalUserId(t, userId);
    var owners, frontier := {canonical}, {canonical};
    ReachesItself(t, canonical);
    while frontier != {}
      invariant canonical in owners && frontier <= owners <= t.Keys + {canonical}
      invariant forall v :: v in owners ==> Reaches(t, v, canonical)
      invariant forall a :: a in t && t[a] in owners - frontier ==> a in owners
      decreases t.Keys + {canonical} - owners, frontier != {}
    {
      var aliases := set a | a in t && t[a] in frontier;
      forall a | a in aliases ensures Reaches(t, a, canonical) {
        ReachesFromBelow(t, a, canonical);
      }
      ghost var before := owners;
      frontier := aliases - owners;
      owners := owners + frontier;
      assert frontier != {} ==> before < owners;
    }
    SameClass(t, userId, canonical, owners);
    var others := Sorted(owners - {canonical});
    r := Ok([canonical] + others);
    assert r.value[1..] == others && Elems(r.value) == {canonical} + Elems(others);
  }

  lemma SameClass(t: Table, u: User, canonical: User, owners: set<User>)
    requires HasRoot(t, u) && canonical == Root(t, u) && canonical in owners
    requires forall v :: v in owners ==> Reaches(t, v, canonical)
    requires forall a :: a in t && t[a] in owners ==> a in owners
    ensures owners == Class(t, u)
  {
    forall v ensures v in owners <==> v in Class(t, u) {
      ClassIsSameRoot(t, u, v);
      if v in owners {
        assert RootOf(t, v, canonical);
        RootUnique(t, v, Root(t, v), canonical);
      } else if HasRoot(t, v) && Root(t, v) == canonical {
        var n: nat :| Up(t, v, n) == canonical;
        ClosedBelow(t, owners, v, n);
      }
    }
  }
}

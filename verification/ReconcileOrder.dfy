/**
 * `reconcileOrder` of the snapshot merge: the kept keys, in the preferred order where it has them,
 * with every other kept key spliced in next to its neighbours in the secondary order.
 */
module ReconcileOrder {
  import opened Sequences
  import opened Wrappers

  type Key = string

  /** JavaScript's `if (found)` on a string that a search returned: the empty string reads as absent. */
  predicate Truthy(found: Option<Key>) {
    found.Some? && found.value != ""
  }

  /** `s.find(candidate => ordered.includes(candidate))`. */
  function FindFirst(s: seq<Key>, ordered: seq<Key>): (r: Option<Key>)
    ensures r.Some? ==> r.value in s && r.value in ordered
    ensures r.Some? ==> forall i :: 0 <= i < IndexOf(s, r.value) ==> s[i] !in ordered
    ensures r.None? ==> forall i :: 0 <= i < |s| ==> s[i] !in ordered
  {
    if s == [] then None
    else if s[0] in ordered then Some(s[0])
    else FindFirst(s[1..], ordered)
  }

  function Reverse(s: seq<Key>): (r: seq<Key>)
    ensures |r| == |s|
    ensures forall i :: 0 <= i < |s| ==> r[i] == s[|s| - 1 - i]
    ensures forall k :: k in r <==> k in s
  {
    if s == [] then [] else
      var r := Reverse(s[1..]) + [s[0]];
      assert forall k :: k in s <==> k == s[0] || k in s[1..];
      r
  }

  /** Where the body of the loop over `secondary` splices `id` into `ordered`. */
  function Place(secondary: seq<Key>, ordered: seq<Key>, id: Key): (i: nat)
    requires id in secondary
    ensures i <= |ordered|
  {
    var at := IndexOf(secondary, id);
    var following := FindFirst(secondary[at + 1..], ordered);
    if Truthy(following) then IndexOf(ordered, following.value)
    else
      var preceding := FindFirst(Reverse(secondary[..at]), ordered);
      if Truthy(preceding) then LastIndexOf(ordered, preceding.value) + 1
      else |ordered|
  }

  function Visit(kept: set<Key>, secondary: seq<Key>, ordered: seq<Key>, id: Key): (r: seq<Key>)
    requires id in secondary
  {
    if id !in kept || id in ordered then ordered
    else InsertAt(ordered, Place(secondary, ordered, id), id)
  }

  /** `ordered` after the first `n` turns of the loop. */
  function Ordered(kept: set<Key>, preferred: seq<Key>, secondary: seq<Key>, n: nat): (r: seq<Key>)
    requires n <= |secondary|
  {
    if n == 0 then Project(preferred, kept)
    else Visit(kept, secondary, Ordered(kept, preferred, secondary, n - 1), secondary[n - 1])
  }

  function Reconciled(kept: set<Key>, preferred: seq<Key>, secondary: seq<Key>): (r: seq<Key>) {
    Ordered(kept, preferred, secondary, |secondary|)
  }

  lemma {:induction false} OrderedKeys(kept: set<Key>, preferred: seq<Key>, secondary: seq<Key>, n: nat)
    requires n <= |secondary|
    ensures Elems(Ordered(kept, preferred, secondary, n)) == (Elems(preferred) + Elems(secondary[..n])) * kept
  {
    hide Place;
    if n != 0 {
      OrderedKeys(kept, preferred, secondary, n - 1);
      assert secondary[..n] == secondary[..n - 1] + [secondary[n - 1]];
      assert Elems(secondary[..n]) == Elems(secondary[..n - 1]) + {secondary[n - 1]};
      var was := Ordered(kept, preferred, secondary, n - 1);
      var id := secondary[n - 1];
      assert id in was <==> id in Elems(was);
      if id in kept && id !in was {
        InsertElems(was, Place(secondary, was, id), id);
      }
    }
  }

  /** The kept entries in the order that the loop computes. */
  function Arranged<T>(retained: map<Key, T>, preferred: seq<Key>, secondary: seq<Key>): (r: seq<T>) {
    var keys := Reconciled(retained.Keys, preferred, secondary);
    OrderedKeys(retained.Keys, preferred, secondary, |secondary|);
    assert forall i :: 0 <= i < |keys| ==> keys[i] in Elems(keys);
    seq(|keys|, i requires 0 <= i < |keys| => retained[keys[i]])
  }

  /** The loop over the secondary order, with `find`, `indexOf` and `splice` on the growing list. */
  method SpliceSecondary(kept: set<Key>, preferred: seq<Key>, secondary: seq<Key>) returns (ordered: seq<Key>)
    ensures ordered == Reconciled(kept, preferred, secondary)
  {
    hide FindFirst, Reverse, IndexOf, LastIndexOf, Project;
    ordered := Project(preferred, kept);
    for n := 0 to |secondary|
      invariant ordered == Ordered(kept, preferred, secondary, n)
    {
      var id := secondary[n];
      if id !in kept || id in ordered {
        continue;
      }
      var secondaryIndex := IndexOf(secondary, id);
      var following := FindFirst(secondary[secondaryIndex + 1..], ordered);
      if Truthy(following) {
        ordered := InsertAt(ordered, IndexOf(ordered, following.value), id);
        continue;
      }
      var preceding := FindFirst(Reverse(secondary[..secondaryIndex]), ordered);
      if Truthy(preceding) {
        ordered := InsertAt(ordered, LastIndexOf(ordered, preceding.value) + 1, id);
      } else {
        assert InsertAt(ordered, |ordered|, id) == ordered + [id];
        ordered := ordered + [id];
      }
    }
  }

  method ReconcileOrder<T>(retained: map<Key, T>, preferred: seq<Key>, secondary: seq<Key>) returns (r: seq<T>)
    ensures r == Arranged(retained, preferred, secondary)
  {
    hide Ordered;
    var ordered := SpliceSecondary(retained.Keys, preferred, secondary);
    OrderedKeys(retained.Keys, preferred, secondary, |secondary|);
    assert forall i :: 0 <= i < |ordered| ==> ordered[i] in Elems(ordered);
    r := seq(|ordered|, i requires 0 <= i < |ordered| => retained[ordered[i]]);
  }

  // ----- one turn of the loop -----

  /** `secondary[j]` is the nearest key behind position `n` that is placed already. */
  predicate NextPlaced(secondary: seq<Key>, placed: seq<Key>, n: int, j: int) {
    0 <= n < j < |secondary| && secondary[j] in placed && forall i :: n < i < j ==> secondary[i] !in placed
  }

  /** `secondary[j]` is the nearest key before position `n` that is placed already. */
  predicate LastPlaced(secondary: seq<Key>, placed: seq<Key>, n: int, j: int) {
    0 <= j < n < |secondary| && secondary[j] in placed && forall i :: j < i < n ==> secondary[i] !in placed
  }

  predicate InsertsAt(before: seq<Key>, after: seq<Key>, p: int, id: Key) {
    0 <= p <= |before| && after == before[..p] + [id] + before[p..]
  }

  predicate StandsAt(placed: seq<Key>, p: int, k: Key) {
    0 <= p < |placed| && placed[p] == k
  }

  /** Directly before the next placed neighbour, else directly behind the last, else at the end; "" is no neighbour. */
  ghost predicate BesideNeighbour(secondary: seq<Key>, placed: seq<Key>, n: int, p: int)
    requires 0 <= p <= |placed|
  {
    if exists j :: NextPlaced(secondary, placed, n, j) && secondary[j] != "" then
      exists j :: NextPlaced(secondary, placed, n, j) && StandsAt(placed, p, secondary[j])
                  && secondary[j] !in placed[..p]
    else if exists j :: LastPlaced(secondary, placed, n, j) && secondary[j] != "" then
      exists j :: LastPlaced(secondary, placed, n, j) && StandsAt(placed, p - 1, secondary[j])
                  && secondary[j] !in placed[p..]
    else p == |placed|
  }

  lemma {:induction false} FirstIndex(s: seq<Key>, n: nat)
    requires n < |s| && s[n] !in s[..n]
    ensures IndexOf(s, s[n]) == n
  {
    if n != 0 {
      assert s[0] in s[..n] && s[1..][..n - 1] == s[..n][1..];
      FirstIndex(s[1..], n - 1);
    }
  }

  lemma {:induction false} IndexIsFirst(s: seq<Key>, k: Key)
    requires k in s
    ensures k !in s[..IndexOf(s, k)]
  {
    if s[0] != k {
      IndexIsFirst(s[1..], k);
      assert s[..IndexOf(s, k)] == [s[0]] + s[1..][..IndexOf(s[1..], k)];
    }
  }

  lemma {:induction false} LastIndexIsLast(s: seq<Key>, k: Key)
    requires k in s
    ensures k !in s[LastIndexOf(s, k) + 1..]
  {
    var last := |s| - 1;
    if s[last] != k {
      assert s == s[..last] + [s[last]];
      LastIndexIsLast(s[..last], k);
      assert s[LastIndexOf(s, k) + 1..] == s[..last][LastIndexOf(s[..last], k) + 1..] + [s[last]];
    }
  }

  lemma FoundNext(secondary: seq<Key>, placed: seq<Key>, n: nat)
    requires n < |secondary|
    ensures var found := FindFirst(secondary[n + 1..], placed);
            && (found.Some? <==> exists j :: NextPlaced(secondary, placed, n, j))
            && forall j :: NextPlaced(secondary, placed, n, j) ==> found == Some(secondary[j])
  {
    hide FindFirst, IndexOf;
    var later := secondary[n + 1..];
    var found := FindFirst(later, placed);
    forall j | NextPlaced(secondary, placed, n, j) ensures found == Some(secondary[j]) {
      FirstPlaced(later, placed, j - n - 1);
    }
    if found.Some? {
      assert NextPlaced(secondary, placed, n, n + 1 + IndexOf(later, found.value));
    }
  }

  lemma FoundLast(secondary: seq<Key>, placed: seq<Key>, n: nat)
    requires n < |secondary|
    ensures var found := FindFirst(Reverse(secondary[..n]), placed);
            && (found.Some? <==> exists j :: LastPlaced(secondary, placed, n, j))
            && forall j :: LastPlaced(secondary, placed, n, j) ==> found == Some(secondary[j])
  {
    hide FindFirst, Reverse, IndexOf;
    var earlier := Reverse(secondary[..n]);
    var found := FindFirst(earlier, placed);
    forall j | LastPlaced(secondary, placed, n, j) ensures found == Some(secondary[j]) {
      FirstPlaced(earlier, placed, n - 1 - j);
    }
    if found.Some? {
      var i := IndexOf(earlier, found.value);
      assert LastPlaced(secondary, placed, n, n - 1 - i) by {
        assert forall k :: n - 1 - i < k < n ==> earlier[n - 1 - k] == secondary[k];
      }
    }
  }

  /** `find` stops at the first placed key. */
  lemma {:induction false} FirstPlaced(s: seq<Key>, placed: seq<Key>, i: nat)
    requires i < |s| && s[i] in placed && forall k :: 0 <= k < i ==> s[k] !in placed
    ensures FindFirst(s, placed) == Some(s[i])
  {
    if i != 0 {
      FirstPlaced(s[1..], placed, i - 1);
    }
  }

  lemma PlaceIsBeside(secondary: seq<Key>, placed: seq<Key>, n: nat)
    requires n < |secondary| && secondary[n] !in secondary[..n]
    ensures BesideNeighbour(secondary, placed, n, Place(secondary, placed, secondary[n]))
  {
    hide FindFirst, Reverse, IndexOf, LastIndexOf;
    FirstIndex(secondary, n);
    FoundNext(secondary, placed, n);
    FoundLast(secondary, placed, n);
    var following, preceding := FindFirst(secondary[n + 1..], placed), FindFirst(Reverse(secondary[..n]), placed);
    if Truthy(following) {
      IndexIsFirst(placed, following.value);
    } else if Truthy(preceding) {
      LastIndexIsLast(placed, preceding.value);
    }
  }

  lemma ElemsOf(s: seq<Key>, k: Key)
    ensures k in s <==> k in Elems(s)
  {
  }

  /** Each turn leaves the list alone or adds its key, beside the neighbour that the secondary order gives it. */
  lemma EachTurn(kept: set<Key>, preferred: seq<Key>, secondary: seq<Key>, n: nat)
    requires n < |secondary|
    ensures var before, after := Ordered(kept, preferred, secondary, n), Ordered(kept, preferred, secondary, n + 1);
            var id := secondary[n];
            if id !in kept || id in before then after == before
            else exists p :: InsertsAt(before, after, p, id) && BesideNeighbour(secondary, before, n, p)
  {
    hide Place, BesideNeighbour;
    var before, id := Ordered(kept, preferred, secondary, n), secondary[n];
    if id in kept && id !in before {
      OrderedKeys(kept, preferred, secondary, n);
      assert id !in Elems(before);
      ElemsOf(secondary[..n], id);
      PlaceIsBeside(secondary, before, n);
      var p := Place(secondary, before, id);
      assert InsertsAt(before, Ordered(kept, preferred, secondary, n + 1), p, id);
    }
  }

  // ----- each kept key once -----

  lemma InsertNoDup(s: seq<Key>, i: nat, k: Key)
    requires NoDup(s) && i <= |s| && k !in s
    ensures NoDup(InsertAt(s, i, k))
  {
    var r := InsertAt(s, i, k);
    forall a, b | 0 <= a < b < |r| ensures r[a] != r[b] {
      InsertedAt(s, i, k, a);
      InsertedAt(s, i, k, b);
    }
  }

  lemma {:induction false} OrderedNoDup(kept: set<Key>, preferred: seq<Key>, secondary: seq<Key>, n: nat)
    requires n <= |secondary| && NoDup(preferred)
    ensures NoDup(Ordered(kept, preferred, secondary, n))
  {
    hide Place;
    if n == 0 {
      ProjectNoDup(preferred, kept);
    } else {
      OrderedNoDup(kept, preferred, secondary, n - 1);
      var was, id := Ordered(kept, preferred, secondary, n - 1), secondary[n - 1];
      if id in kept && id !in was {
        InsertNoDup(was, Place(secondary, was, id), id);
      }
    }
  }

  /** Every kept key of either order comes out, and comes out once. */
  lemma EachKeptKeyOnce(kept: set<Key>, preferred: seq<Key>, secondary: seq<Key>)
    requires NoDup(preferred)
    ensures NoDup(Reconciled(kept, preferred, secondary))
    ensures Elems(Reconciled(kept, preferred, secondary)) == (Elems(preferred) + Elems(secondary)) * kept
  {
    OrderedNoDup(kept, preferred, secondary, |secondary|);
    OrderedKeys(kept, preferred, secondary, |secondary|);
    assert secondary[..|secondary|] == secondary;
  }

  // ----- the preferred order survives -----

  lemma InsertOutside(s: seq<Key>, i: nat, k: Key, keep: set<Key>)
    requires i <= |s| && k !in keep
    ensures Project(InsertAt(s, i, k), keep) == Project(s, keep)
  {
    assert s == s[..i] + s[i..] && InsertAt(s, i, k) == s[..i] + ([k] + s[i..]);
    ProjectAppend(s[..i], s[i..], keep);
    ProjectAppend(s[..i], [k] + s[i..], keep);
    ProjectAppend([k], s[i..], keep);
  }

  lemma {:induction false} OrderedKeepsPreferred(kept: set<Key>, preferred: seq<Key>, secondary: seq<Key>, n: nat)
    requires n <= |secondary|
    ensures Project(Ordered(kept, preferred, secondary, n), Elems(preferred)) == Project(preferred, kept)
  {
    hide Place;
    var result := Ordered(kept, preferred, secondary, n);
    if n == 0 {
      ProjectAll(result, Elems(preferred));
    } else {
      OrderedKeepsPreferred(kept, preferred, secondary, n - 1);
      OrderedKeys(kept, preferred, secondary, n - 1);
      var was, id := Ordered(kept, preferred, secondary, n - 1), secondary[n - 1];
      if id in kept && id !in was {
        assert id !in Elems(was);
        InsertOutside(was, Place(secondary, was, id), id, Elems(preferred));
      }
    }
  }

  /** Whatever is spliced in, the preferred order's own kept keys stay in the preferred order. */
  lemma PreferredOrderKept(kept: set<Key>, preferred: seq<Key>, secondary: seq<Key>)
    ensures Project(Reconciled(kept, preferred, secondary), Elems(preferred)) == Project(preferred, kept)
  {
    OrderedKeepsPreferred(kept, preferred, secondary, |secondary|);
  }

  // ----- when the secondary order survives too -----

  /** The two orders put the kept keys that both have in the same order. */
  predicate Agree(kept: set<Key>, preferred: seq<Key>, secondary: seq<Key>) {
    Project(preferred, Elems(secondary) * kept) == Project(secondary, Elems(preferred) * kept)
  }

  function Head(s: seq<Key>): Option<Key> {
    if s == [] then None else Some(s[0])
  }

  /**
   * The inputs on which the truth test `if (following)` misplaces a key: the empty key is the first
   * shared kept key of the secondary order, but some kept key stands before it there.
   */
  predicate EmptyKeyTrap(kept: set<Key>, preferred: seq<Key>, secondary: seq<Key>) {
    && Head(Project(secondary, Elems(preferred) * kept)) == Some("")
    && Head(Project(secondary, kept)) != Some("")
  }

  /** Both orders in one: the result restricted to `secondary` is what `secondary` keeps. */
  predicate SecondaryOrderKept(kept: set<Key>, preferred: seq<Key>, secondary: seq<Key>) {
    Project(Reconciled(kept, preferred, secondary), Elems(secondary)) == Project(secondary, kept)
  }

  /** The first kept key of an order, found at position `n`. */
  lemma {:induction false} HeadAt(s: seq<Key>, keep: set<Key>, n: nat)
    requires n < |s| && s[n] in keep && forall i :: 0 <= i < n ==> s[i] !in keep
    ensures Head(Project(s, keep)) == Some(s[n])
  {
    if n > 0 {
      assert s[0] !in keep;
      HeadAt(s[1..], keep, n - 1);
    }
  }

  /** Splicing a key between all its predecessors and all its successors keeps the order. */
  lemma InsertFollows(o: seq<Key>, pos: nat, id: Key, s: seq<Key>)
    requires NoDup(s) && Follows(o, s) && id in s && pos <= |o|
    requires forall i :: 0 <= i < pos && o[i] in s ==> IndexOf(s, o[i]) < IndexOf(s, id)
    requires forall i :: pos <= i < |o| && o[i] in s ==> IndexOf(s, id) < IndexOf(s, o[i])
    ensures Follows(InsertAt(o, pos, id), s)
  {
    var q := InsertAt(o, pos, id);
    forall i, j | 0 <= i < j < |q| && q[i] in s && q[j] in s
      ensures IndexOf(s, q[i]) < IndexOf(s, q[j])
    {
      InsertedAt(o, pos, id, i);
      InsertedAt(o, pos, id, j);
    }
  }

  /** `find` after position `n` stops at the nearest placed key. */
  lemma After(s: seq<Key>, o: seq<Key>, n: nat, k: Key)
    requires NoDup(s) && n < |s|
    ensures var following := FindFirst(s[n + 1..], o);
            && (following.Some? ==> following.value in s && IndexOf(s, following.value) > n)
            && (k in o && k in s && IndexOf(s, k) > n ==>
                  following.Some? && IndexOf(s, following.value) <= IndexOf(s, k))
  {
    var later := s[n + 1..];
    var following := FindFirst(later, o);
    if following.Some? {
      var i := IndexOf(later, following.value);
      assert later[i] == s[n + 1 + i];
      IndexOfAt(s, n + 1 + i);
    }
    if k in o && k in s && IndexOf(s, k) > n {
      assert later[IndexOf(s, k) - n - 1] == k;
    }
  }

  /** `find` on the reversed part before position `n` stops at the nearest placed key. */
  lemma Behind(s: seq<Key>, o: seq<Key>, n: nat, k: Key)
    requires NoDup(s) && n < |s|
    ensures var preceding := FindFirst(Reverse(s[..n]), o);
            && (preceding.Some? ==> preceding.value in s && IndexOf(s, preceding.value) < n)
            && (k in o && k in s && IndexOf(s, k) < n ==>
                  preceding.Some? && IndexOf(s, k) <= IndexOf(s, preceding.value))
  {
    var earlier := Reverse(s[..n]);
    var preceding := FindFirst(earlier, o);
    if preceding.Some? {
      var i := IndexOf(earlier, preceding.value);
      assert earlier[i] == s[n - 1 - i];
      IndexOfAt(s, n - 1 - i);
    }
    if k in o && k in s && IndexOf(s, k) < n {
      assert earlier[n - 1 - IndexOf(s, k)] == k;
    }
  }

  /** What the neighbours of `s[n]` in `o` say about the place of any other key of both. */
  predicate Neighbours(s: seq<Key>, o: seq<Key>, n: nat, k: Key, following: Option<Key>, preceding: Option<Key>)
    requires n < |s|
  {
    && (following.Some? ==> following.value in s && following.value in o && IndexOf(s, following.value) > n)
    && (preceding.Some? ==> preceding.value in s && preceding.value in o && IndexOf(s, preceding.value) < n)
    && (k in s && IndexOf(s, k) > n ==>
          following.Some? && IndexOf(s, following.value) <= IndexOf(s, k))
    && (k in s && IndexOf(s, k) < n ==>
          preceding.Some? && IndexOf(s, k) <= IndexOf(s, preceding.value))
  }

  lemma BesideFollowing(s: seq<Key>, o: seq<Key>, n: nat, i: nat, following: Option<Key>, preceding: Option<Key>)
    requires NoDup(s) && NoDup(o) && n < |s| && s[n] !in o && Follows(o, s) && i < |o| && o[i] in s
    requires Neighbours(s, o, n, o[i], following, preceding) && following.Some?
    ensures i < IndexOf(o, following.value) <==> IndexOf(s, o[i]) < n
    ensures IndexOf(s, o[i]) != n
  {
    var f := IndexOf(o, following.value);
    assert s[IndexOf(s, o[i])] == o[i];
    assert i < f ==> IndexOf(s, o[i]) < IndexOf(s, o[f]);
    assert f < i ==> IndexOf(s, o[f]) < IndexOf(s, o[i]);
  }

  lemma BesidePreceding(s: seq<Key>, o: seq<Key>, n: nat, i: nat, following: Option<Key>, preceding: Option<Key>)
    requires NoDup(s) && NoDup(o) && n < |s| && s[n] !in o && Follows(o, s) && i < |o| && o[i] in s
    requires Neighbours(s, o, n, o[i], following, preceding) && preceding.Some?
    ensures i <= LastIndexOf(o, preceding.value) <==> IndexOf(s, o[i]) < n
    ensures IndexOf(s, o[i]) != n
  {
    var p := LastIndexOf(o, preceding.value);
    assert s[IndexOf(s, o[i])] == o[i];
    assert i < p ==> IndexOf(s, o[i]) < IndexOf(s, o[p]);
    assert p < i ==> IndexOf(s, o[p]) < IndexOf(s, o[i]);
  }

  lemma NeighboursOf(s: seq<Key>, o: seq<Key>, n: nat, k: Key)
    requires NoDup(s) && n < |s| && k in o
    ensures Neighbours(s, o, n, k, FindFirst(s[n + 1..], o), FindFirst(Reverse(s[..n]), o))
  {
    hide IndexOf;
    After(s, o, n, k);
    Behind(s, o, n, k);
  }

  /** The splice point separates the predecessors from the successors, unless the empty key hides the only neighbour. */
  lemma PlaceSeparates(s: seq<Key>, o: seq<Key>, n: nat, i: nat)
    requires NoDup(s) && NoDup(o) && n < |s| && s[n] !in o && Follows(o, s) && i < |o| && o[i] in s
    requires FindFirst(s[n + 1..], o) == Some("") ==> FindFirst(Reverse(s[..n]), o).Some?
    ensures i < Place(s, o, s[n]) ==> IndexOf(s, o[i]) < n
    ensures Place(s, o, s[n]) <= i ==> n < IndexOf(s, o[i])
  {
    hide FindFirst, Reverse, IndexOf, LastIndexOf, Follows, NoDup;
    IndexOfAt(s, n);
    NeighboursOf(s, o, n, o[i]);
    var following, preceding := FindFirst(s[n + 1..], o), FindFirst(Reverse(s[..n]), o);
    if Truthy(following) {
      BesideFollowing(s, o, n, i, following, preceding);
    } else if preceding.Some? {
      BesidePreceding(s, o, n, i, following, preceding);
    }
  }

  /** One turn keeps the secondary order unless the empty key hides the only neighbour. */
  lemma VisitFollows(s: seq<Key>, o: seq<Key>, n: nat)
    requires NoDup(s) && NoDup(o) && n < |s| && s[n] !in o && Follows(o, s)
    requires FindFirst(s[n + 1..], o) == Some("") ==> FindFirst(Reverse(s[..n]), o).Some?
    ensures Follows(InsertAt(o, Place(s, o, s[n]), s[n]), s)
  {
    hide *;
    var pos := Place(s, o, s[n]);
    IndexOfAt(s, n);
    forall i | 0 <= i < |o| && o[i] in s
      ensures i < pos ==> IndexOf(s, o[i]) < n
      ensures pos <= i ==> n < IndexOf(s, o[i])
    {
      PlaceSeparates(s, o, n, i);
    }
    InsertFollows(o, pos, s[n], s);
  }

  /** The state of the loop in which the truth test goes wrong is reached only through the trap. */
  lemma OnlyTrapHidesBoth(kept: set<Key>, preferred: seq<Key>, secondary: seq<Key>, n: nat)
    requires NoDup(secondary) && n < |secondary| && secondary[n] in kept
    requires var o := Ordered(kept, preferred, secondary, n);
             secondary[n] !in o && FindFirst(secondary[n + 1..], o) == Some("")
             && FindFirst(Reverse(secondary[..n]), o).None?
    ensures EmptyKeyTrap(kept, preferred, secondary)
  {
    var o := Ordered(kept, preferred, secondary, n);
    OrderedKeys(kept, preferred, secondary, n);
    assert forall k :: k in o <==> k in Elems(o);
    IndexOfAt(secondary, n);
    After(secondary, o, n, "");
    var e := IndexOf(secondary, "");
    forall i | 0 <= i < e
      ensures i < n ==> secondary[i] !in kept
      ensures secondary[i] !in Elems(preferred) * kept
    {
      IndexOfAt(secondary, i);
      After(secondary, o, n, secondary[i]);
      Behind(secondary, o, n, secondary[i]);
      assert i < n ==> secondary[..n][i] == secondary[i];
    }
    assert "" in preferred;
    HeadAt(secondary, Elems(preferred) * kept, e);
    HeadAt(secondary, kept, n);
  }

  lemma AgreeingStart(kept: set<Key>, preferred: seq<Key>, secondary: seq<Key>)
    requires NoDup(preferred) && NoDup(secondary) && Agree(kept, preferred, secondary)
    ensures Follows(Project(preferred, kept), secondary)
  {
    var o := Project(preferred, kept);
    var shared := Project(preferred, Elems(secondary) * kept);
    ProjectNoDup(preferred, kept);
    ProjectTwice(preferred, kept, Elems(secondary));
    assert kept * Elems(secondary) == Elems(secondary) * kept;
    forall i, j | 0 <= i < j < |o| && o[i] in secondary && o[j] in secondary
      ensures IndexOf(secondary, o[i]) < IndexOf(secondary, o[j])
    {
      assert o[i] in o && o[j] in o;
      IndexOfAt(o, i);
      IndexOfAt(o, j);
      ProjectKeepsOrder(o, Elems(secondary), o[i], o[j]);
      ProjectKeepsOrder(secondary, Elems(preferred) * kept, o[i], o[j]);
    }
  }

  lemma {:induction false} OrderedFollows(kept: set<Key>, preferred: seq<Key>, secondary: seq<Key>, n: nat)
    requires NoDup(preferred) && NoDup(secondary) && n <= |secondary|
    requires Agree(kept, preferred, secondary) && !EmptyKeyTrap(kept, preferred, secondary)
    ensures Follows(Ordered(kept, preferred, secondary, n), secondary)
  {
    hide Place, Agree, EmptyKeyTrap, FindFirst, Reverse, Project, Follows, IndexOf, InsertAt;
    if n == 0 {
      AgreeingStart(kept, preferred, secondary);
    } else {
      OrderedFollows(kept, preferred, secondary, n - 1);
      OrderedNoDup(kept, preferred, secondary, n - 1);
      var o, id := Ordered(kept, preferred, secondary, n - 1), secondary[n - 1];
      if id in kept && id !in o {
        if FindFirst(secondary[n..], o) == Some("") && FindFirst(Reverse(secondary[..n - 1]), o).None? {
          OnlyTrapHidesBoth(kept, preferred, secondary, n - 1);
        }
        VisitFollows(secondary, o, n - 1);
      }
    }
  }

  /** What was in the list before a turn keeps its order in every later list. */
  lemma {:induction false} LaterTurnsOnlyInsert(kept: set<Key>, preferred: seq<Key>, secondary: seq<Key>,
                                               m: nat, n: nat)
    requires m <= n <= |secondary|
    ensures Project(Ordered(kept, preferred, secondary, n), Elems(Ordered(kept, preferred, secondary, m)))
         == Ordered(kept, preferred, secondary, m)
  {
    hide Place;
    var base := Ordered(kept, preferred, secondary, m);
    if n == m {
      ProjectAll(base, Elems(base));
    } else {
      LaterTurnsOnlyInsert(kept, preferred, secondary, m, n - 1);
      var o, id := Ordered(kept, preferred, secondary, n - 1), secondary[n - 1];
      if id in kept && id !in o {
        assert id in base ==> id in Project(o, Elems(base));
        InsertOutside(o, Place(secondary, o, id), id, Elems(base));
      }
    }
  }

  /** In the trap, the kept keys before the empty key in the secondary order are all its own. */
  lemma TrapPositions(kept: set<Key>, preferred: seq<Key>, secondary: seq<Key>) returns (m: nat)
    requires NoDup(secondary) && EmptyKeyTrap(kept, preferred, secondary)
    ensures "" in secondary && "" in kept && "" in preferred
    ensures m < IndexOf(secondary, "") && secondary[m] in kept
    ensures forall i :: 0 <= i < m ==> secondary[i] !in kept
    ensures forall i :: 0 <= i < IndexOf(secondary, "") ==> secondary[i] !in Elems(preferred) * kept
  {
    var target, shared := Project(secondary, kept), Project(secondary, Elems(preferred) * kept);
    assert shared[0] in shared;
    assert "" in target;
    assert target[0] in target;
    m := IndexOf(secondary, target[0]);
    FirstOfProjection(secondary, kept);
    FirstOfProjection(secondary, Elems(preferred) * kept);
    assert "" == shared[0];
  }

  /** Nothing kept stands before the first kept key. */
  lemma {:induction false} FirstOfProjection(s: seq<Key>, keep: set<Key>)
    requires Project(s, keep) != []
    ensures forall i :: 0 <= i < IndexOf(s, Project(s, keep)[0]) ==> s[i] !in keep
    ensures forall i :: 0 <= i < |s| && s[i] in keep ==> IndexOf(s, Project(s, keep)[0]) <= i
  {
    if s[0] !in keep {
      FirstOfProjection(s[1..], keep);
      var k := Project(s, keep)[0];
      assert k in Project(s[1..], keep);
      IndexOfTail(s, k);
      assert forall i :: 1 <= i < |s| ==> s[i] == s[1..][i - 1];
    }
  }

  /** Until its first kept key, the secondary order adds nothing. */
  lemma NothingPlacedBefore(kept: set<Key>, preferred: seq<Key>, secondary: seq<Key>, m: nat, k: Key)
    requires m <= |secondary|
    requires forall i :: 0 <= i < m ==> secondary[i] !in kept
    ensures k in Ordered(kept, preferred, secondary, m) <==> k in Elems(preferred) * kept
  {
    OrderedKeys(kept, preferred, secondary, m);
    assert k in Ordered(kept, preferred, secondary, m) <==> k in Elems(Ordered(kept, preferred, secondary, m));
  }

  /** The first kept key of the secondary order before its first shared one, the empty key. */
  ghost predicate BeforeTrap(kept: set<Key>, preferred: seq<Key>, secondary: seq<Key>, m: nat) {
    && NoDup(secondary) && "" in secondary && "" in kept && "" in preferred
    && m < IndexOf(secondary, "") && secondary[m] in kept
    && (forall i :: 0 <= i < m ==> secondary[i] !in kept)
    && forall i :: 0 <= i < IndexOf(secondary, "") ==> secondary[i] !in Elems(preferred) * kept
  }

  /** Its only neighbour so far is the empty key. */
  lemma TrapFollowing(kept: set<Key>, preferred: seq<Key>, secondary: seq<Key>, m: nat)
    requires BeforeTrap(kept, preferred, secondary, m)
    ensures var o := Ordered(kept, preferred, secondary, m);
            "" in o && secondary[m] !in o && FindFirst(secondary[m + 1..], o) == Some("")
  {
    hide FindFirst, Reverse, IndexOf, LastIndexOf, Project, Ordered;
    var o := Ordered(kept, preferred, secondary, m);
    var following := FindFirst(secondary[m + 1..], o);
    NothingPlacedBefore(kept, preferred, secondary, m, "");
    NothingPlacedBefore(kept, preferred, secondary, m, secondary[m]);
    After(secondary, o, m, "");
    NothingPlacedBefore(kept, preferred, secondary, m, following.value);
    assert following.value == secondary[IndexOf(secondary, following.value)];
  }

  lemma TrapPreceding(kept: set<Key>, preferred: seq<Key>, secondary: seq<Key>, m: nat)
    requires BeforeTrap(kept, preferred, secondary, m)
    ensures FindFirst(Reverse(secondary[..m]), Ordered(kept, preferred, secondary, m)).None?
  {
    hide FindFirst, Reverse, IndexOf, LastIndexOf, Project, Ordered;
    var o := Ordered(kept, preferred, secondary, m);
    var preceding := FindFirst(Reverse(secondary[..m]), o);
    if preceding.Some? {
      assert preceding.value in secondary[..m];
      NothingPlacedBefore(kept, preferred, secondary, m, preceding.value);
      assert false;
    }
  }

  /** There the truth test pushes the first kept key of the secondary order behind the empty key. */
  lemma TrapPushes(kept: set<Key>, preferred: seq<Key>, secondary: seq<Key>, m: nat)
    requires BeforeTrap(kept, preferred, secondary, m)
    ensures var o := Ordered(kept, preferred, secondary, m);
            "" in o && secondary[m] !in o && Ordered(kept, preferred, secondary, m + 1) == o + [secondary[m]]
  {
    var o, first := Ordered(kept, preferred, secondary, m), secondary[m];
    TrapFollowing(kept, preferred, secondary, m);
    TrapPreceding(kept, preferred, secondary, m);
    hide FindFirst, Reverse, IndexOf, LastIndexOf, Project, BeforeTrap, NoDup;
    IndexOfFirst(kept, preferred, secondary, m);
    assert Place(secondary, o, first) == |o|;
    assert InsertAt(o, |o|, first) == o + [first];
  }

  lemma IndexOfFirst(kept: set<Key>, preferred: seq<Key>, secondary: seq<Key>, m: nat)
    requires BeforeTrap(kept, preferred, secondary, m)
    ensures m < |secondary| && IndexOf(secondary, secondary[m]) == m && secondary[m] in kept
  {
    IndexOfAt(secondary, m);
  }

  /** In the trap the secondary order is lost for good. */
  lemma TrapMisplaces(kept: set<Key>, preferred: seq<Key>, secondary: seq<Key>)
    requires NoDup(preferred) && NoDup(secondary) && EmptyKeyTrap(kept, preferred, secondary)
    ensures !SecondaryOrderKept(kept, preferred, secondary)
  {
    var m := TrapPositions(kept, preferred, secondary);
    TrapPushes(kept, preferred, secondary, m);
    var first, next := secondary[m], Ordered(kept, preferred, secondary, m + 1);
    OrderedNoDup(kept, preferred, secondary, m + 1);
    IndexOfAt(next, |next| - 1);
    IndexOfAt(secondary, m);
    LaterTurnsOnlyInsert(kept, preferred, secondary, m + 1, |secondary|);
    var result := Reconciled(kept, preferred, secondary);
    EachKeptKeyOnce(kept, preferred, secondary);
    assert first in Elems(next) && "" in Elems(next) && first in Elems(result) && "" in Elems(result);
    ProjectKeepsOrder(result, Elems(next), "", first);
    ProjectKeepsOrder(result, Elems(secondary), "", first);
    ProjectKeepsOrder(secondary, kept, first, "");
  }

  lemma FollowingResultIsOrder(kept: set<Key>, preferred: seq<Key>, secondary: seq<Key>)
    requires NoDup(preferred) && NoDup(secondary)
    requires Follows(Reconciled(kept, preferred, secondary), secondary)
    ensures SecondaryOrderKept(kept, preferred, secondary)
  {
    hide IndexOf, Project, Reconciled;
    var result := Reconciled(kept, preferred, secondary);
    EachKeptKeyOnce(kept, preferred, secondary);
    var a, b := Project(result, Elems(secondary)), Project(secondary, kept);
    ProjectFollows(result, Elems(secondary));
    ProjectNoDup(result, Elems(secondary));
    ProjectFollows(secondary, kept);
    ProjectNoDup(secondary, kept);
    forall i, j | 0 <= i < j < |a| ensures IndexOf(secondary, a[i]) < IndexOf(secondary, a[j]) {
      assert a[i] in a && a[j] in a;
      assert IndexOf(result, a[i]) < IndexOf(result, a[j]);
    }
    forall k ensures k in Elems(a) <==> k in Elems(b) {
      assert k in result <==> k in Elems(result);
    }
    SameKeysSameOrder(a, b, secondary);
  }

  /** A common supersequence of two orders forces the orders to agree. */
  lemma CommonOrderForcesAgreement(kept: set<Key>, preferred: seq<Key>, secondary: seq<Key>)
    requires SecondaryOrderKept(kept, preferred, secondary)
    ensures Agree(kept, preferred, secondary)
  {
    var result := Reconciled(kept, preferred, secondary);
    PreferredOrderKept(kept, preferred, secondary);
    ProjectTwice(result, Elems(preferred), Elems(secondary));
    ProjectTwice(result, Elems(secondary), Elems(preferred));
    ProjectTwice(preferred, kept, Elems(secondary));
    ProjectTwice(secondary, kept, Elems(preferred));
    assert Elems(preferred) * Elems(secondary) == Elems(secondary) * Elems(preferred);
    assert kept * Elems(secondary) == Elems(secondary) * kept;
    assert kept * Elems(preferred) == Elems(preferred) * kept;
  }

  /**
   * The result carries both orders exactly when the two agree on the kept keys they share and the
   * empty key does not trip the truth test; nothing is asked of the keys themselves.
   */
  lemma SecondaryOrderKeptIff(kept: set<Key>, preferred: seq<Key>, secondary: seq<Key>)
    requires NoDup(preferred) && NoDup(secondary)
    ensures SecondaryOrderKept(kept, preferred, secondary)
       <==> Agree(kept, preferred, secondary) && !EmptyKeyTrap(kept, preferred, secondary)
  {
    if SecondaryOrderKept(kept, preferred, secondary) {
      CommonOrderForcesAgreement(kept, preferred, secondary);
      if EmptyKeyTrap(kept, preferred, secondary) {
        TrapMisplaces(kept, preferred, secondary);
      }
    } else if Agree(kept, preferred, secondary) && !EmptyKeyTrap(kept, preferred, secondary) {
      OrderedFollows(kept, preferred, secondary, |secondary|);
      FollowingResultIsOrder(kept, preferred, secondary);
    }
  }

  /** A concrete pair of agreeing orders that the empty key spoils: "a" belongs before "". */
  lemma EmptyKeySpoilsAgreeingOrders()
    ensures var kept, preferred, secondary := {"", "a"}, [""], ["a", ""];
            && NoDup(preferred) && NoDup(secondary)
            && Agree(kept, preferred, secondary)
            && Reconciled(kept, preferred, secondary) == ["", "a"]
            && !SecondaryOrderKept(kept, preferred, secondary)
  {
    var kept, preferred, secondary: seq<Key> := {"", "a"}, [""], ["a", ""];
    assert preferred[0] == "" && secondary[1] == "";
    assert "" in Elems(preferred) && "" in Elems(secondary) && "a" in Elems(secondary);
    assert "a" !in Elems(preferred);
    assert secondary[1..] == [""];
    assert Project(secondary[1..], kept) == [""];
    assert Project(secondary[1..], Elems(preferred) * kept) == [""];
    assert Project(secondary, Elems(preferred) * kept) == [""];
    assert Project(preferred, kept) == [""];
    assert Ordered(kept, preferred, secondary, 1) == ["", "a"];
    SecondaryOrderKeptIff(kept, preferred, secondary);
  }
}

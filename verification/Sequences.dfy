/** Orders of keys: searching, restricting and comparing sequences without repetition. */
module Sequences {

  predicate NoDup<K(==)>(s: seq<K>) {
    forall i, j :: 0 <= i < j < |s| ==> s[i] != s[j]
  }

  function Elems<K>(s: seq<K>): set<K> {
    set k | k in s
  }

  /** JavaScript's `indexOf`: the first position of `k`, or -1. */
  function IndexOf<K(==)>(s: seq<K>, k: K): (i: int)
    ensures -1 <= i < |s|
    ensures i == -1 <==> k !in s
    ensures i >= 0 ==> s[i] == k
  {
    if s == [] then -1
    else if s[0] == k then 0
    else
      var rest := IndexOf(s[1..], k);
      if rest < 0 then -1 else rest + 1
  }

  /** JavaScript's `lastIndexOf`: the last position of `k`, or -1. */
  function LastIndexOf<K(==)>(s: seq<K>, k: K): (i: int)
    ensures -1 <= i < |s|
    ensures i == -1 <==> k !in s
    ensures i >= 0 ==> s[i] == k
  {
    if s == [] then -1
    else
      var last := |s| - 1;
      if s[last] == k then last
      else
        assert s == s[..last] + [s[last]];
        LastIndexOf(s[..last], k)
  }

  /** `new Set(s)` in insertion order: each key where it first occurs. */
  function Distinct<K(==)>(s: seq<K>): (r: seq<K>)
    ensures Elems(r) == Elems(s)
  {
    if s == [] then []
    else
      var last := |s| - 1;
      assert s == s[..last] + [s[last]];
      var r := Distinct(s[..last]);
      assert Elems(s) == Elems(r) + {s[last]};
      assert s[last] in r <==> s[last] in Elems(r);
      if s[last] in r then r else
        assert Elems(r + [s[last]]) == Elems(r) + {s[last]};
        r + [s[last]]
  }

  /** The subsequence of the elements that lie in `keep`. */
  function Project<K(==, !new)>(s: seq<K>, keep: set<K>): (r: seq<K>)
    ensures forall k :: k in r <==> k in s && k in keep
    ensures |r| <= |s|
  {
    if s == [] then []
    else if s[0] in keep then [s[0]] + Project(s[1..], keep)
    else Project(s[1..], keep)
  }

  function InsertAt<K>(s: seq<K>, i: nat, k: K): (r: seq<K>)
    requires i <= |s|
    ensures |r| == |s| + 1
  {
    s[..i] + [k] + s[i..]
  }

  lemma InsertedAt<K>(s: seq<K>, i: nat, k: K, j: nat)
    requires i <= |s| && j <= |s|
    ensures InsertAt(s, i, k)[j] == if j < i then s[j] else if j == i then k else s[j - 1]
  {
  }

  lemma InsertElems<K>(s: seq<K>, i: nat, k: K)
    requires i <= |s|
    ensures Elems(InsertAt(s, i, k)) == Elems(s) + {k}
  {
    assert s == s[..i] + s[i..];
  }

  lemma IndexOfAt<K(!new)>(s: seq<K>, i: nat)
    requires NoDup(s) && i < |s|
    ensures IndexOf(s, s[i]) == i
  {
    var j := IndexOf(s, s[i]);
    assert s[j] == s[i];
  }

  lemma IndexOfTail<K(!new)>(s: seq<K>, k: K)
    requires s != [] && k in s && s[0] != k
    ensures k in s[1..] && IndexOf(s, k) == IndexOf(s[1..], k) + 1
  {
  }

  lemma {:induction false} ProjectAppend<K(!new)>(a: seq<K>, b: seq<K>, keep: set<K>)
    ensures Project(a + b, keep) == Project(a, keep) + Project(b, keep)
  {
    if a == [] {
      assert a + b == b;
    } else {
      assert (a + b)[1..] == a[1..] + b;
      ProjectAppend(a[1..], b, keep);
    }
  }

  /** The restriction of a prefix that grows by one element. */
  lemma ProjectStep<K(!new)>(s: seq<K>, n: nat, keep: set<K>)
    requires n < |s|
    ensures Project(s[..n + 1], keep) == Project(s[..n], keep) + if s[n] in keep then [s[n]] else []
  {
    assert s[..n + 1] == s[..n] + [s[n]];
    ProjectAppend(s[..n], [s[n]], keep);
  }

  lemma {:induction false} ProjectTwice<K(!new)>(s: seq<K>, first: set<K>, second: set<K>)
    ensures Project(Project(s, first), second) == Project(s, first * second)
  {
    if s != [] {
      ProjectTwice(s[1..], first, second);
      if s[0] in first {
        assert Project(s, first) == [s[0]] + Project(s[1..], first);
        assert Project(s, first)[1..] == Project(s[1..], first);
      }
    }
  }

  lemma {:induction false} ProjectAll<K(!new)>(s: seq<K>, keep: set<K>)
    requires Elems(s) <= keep
    ensures Project(s, keep) == s
  {
    if s != [] {
      assert s[0] in Elems(s);
      assert forall k :: k in s[1..] ==> k in Elems(s);
      ProjectAll(s[1..], keep);
    }
  }

  lemma {:induction false} ProjectNoDup<K(!new)>(s: seq<K>, keep: set<K>)
    requires NoDup(s)
    ensures NoDup(Project(s, keep))
  {
    if s != [] {
      ProjectNoDup(s[1..], keep);
      assert s[0] !in s[1..];
    }
  }

  /** Restricting an order neither swaps nor separates the keys it keeps. */
  lemma {:induction false} ProjectKeepsOrder<K(!new)>(s: seq<K>, keep: set<K>, x: K, y: K)
    requires NoDup(s) && x in s && y in s && x in keep && y in keep
    ensures IndexOf(s, x) < IndexOf(s, y) <==> IndexOf(Project(s, keep), x) < IndexOf(Project(s, keep), y)
  {
    var p := Project(s, keep);
    if x == y {
    } else if s[0] == x {
      assert p[0] == x;
    } else if s[0] == y {
      assert p[0] == y;
    } else {
      IndexOfTail(s, x);
      IndexOfTail(s, y);
      ProjectKeepsOrder(s[1..], keep, x, y);
      if s[0] in keep {
        assert p[0] == s[0] && p[1..] == Project(s[1..], keep);
        IndexOfTail(p, x);
        IndexOfTail(p, y);
      }
    }
  }

  /** `q` lists its keys in the order in which `s` has them. */
  ghost predicate Follows<K(!new)>(q: seq<K>, s: seq<K>) {
    forall i, j :: 0 <= i < j < |q| && q[i] in s && q[j] in s ==> IndexOf(s, q[i]) < IndexOf(s, q[j])
  }

  lemma FollowsTail<K(!new)>(q: seq<K>, s: seq<K>)
    requires Follows(q, s) && q != []
    ensures Follows(q[1..], s)
  {
    forall i, j | 0 <= i < j < |q[1..]| && q[1..][i] in s && q[1..][j] in s
      ensures IndexOf(s, q[1..][i]) < IndexOf(s, q[1..][j])
    {
      assert q[1..][i] == q[i + 1] && q[1..][j] == q[j + 1];
    }
  }

  /** The head of an order that follows `s` is the key that `s` has first. */
  lemma HeadIsLeast<K(!new)>(q: seq<K>, s: seq<K>, k: K)
    requires Follows(q, s) && Elems(q) <= Elems(s) && q != [] && k in q
    ensures IndexOf(s, q[0]) <= IndexOf(s, k)
  {
    var j :| 0 <= j < |q| && q[j] == k;
    assert q[0] in Elems(q) && k in Elems(q);
  }

  /** An order is determined by its keys and by an order it follows. */
  lemma {:induction false} SameKeysSameOrder<K(!new)>(a: seq<K>, b: seq<K>, s: seq<K>)
    requires Follows(a, s) && Follows(b, s)
    requires Elems(a) == Elems(b) <= Elems(s)
    requires NoDup(a) && NoDup(b)
    ensures a == b
  {
    assert |a| > 0 ==> a[0] in Elems(a);
    assert |b| > 0 ==> b[0] in Elems(b);
    if a != [] && b != [] {
      HeadIsLeast(a, s, b[0]);
      HeadIsLeast(b, s, a[0]);
      assert a[0] == b[0];
      assert a == [a[0]] + a[1..] && b == [b[0]] + b[1..];
      assert a[0] !in a[1..] && b[0] !in b[1..];
      forall k ensures k in Elems(a[1..]) <==> k in Elems(b[1..]) {
        assert k in Elems(a) <==> k == a[0] || k in a[1..];
        assert k in Elems(b) <==> k == b[0] || k in b[1..];
      }
      FollowsTail(a, s);
      FollowsTail(b, s);
      SameKeysSameOrder(a[1..], b[1..], s);
    }
  }

  lemma ProjectFollows<K(!new)>(s: seq<K>, keep: set<K>)
    requires NoDup(s)
    ensures Follows(Project(s, keep), s)
  {
    var p := Project(s, keep);
    ProjectNoDup(s, keep);
    forall i, j | 0 <= i < j < |p| && p[i] in s && p[j] in s
      ensures IndexOf(s, p[i]) < IndexOf(s, p[j])
    {
      assert p[i] in p && p[j] in p;
      IndexOfAt(p, i);
      IndexOfAt(p, j);
      ProjectKeepsOrder(s, keep, p[i], p[j]);
    }
  }

  lemma {:induction false} SizeOfDistinct<K>(s: seq<K>)
    ensures |Elems(s)| <= |s|
    ensures NoDup(s) <==> |Elems(s)| == |s|
  {
    if s != [] {
      var last := |s| - 1;
      SizeOfDistinct(s[..last]);
      assert s == s[..last] + [s[last]];
      assert Elems(s) == Elems(s[..last]) + {s[last]};
      assert NoDup(s) ==> s[last] !in s[..last];
      assert s[last] !in s[..last] && NoDup(s[..last]) ==> NoDup(s);
    }
  }

  lemma SubsetOfEqualSize<K>(a: set<K>, b: set<K>)
    requires a <= b && |a| == |b|
    ensures a == b
  {
    assert b == a + (b - a);
    assert |b| == |a| + |b - a|;
  }

  lemma SizeOfSubset<K>(a: set<K>, b: set<K>)
    requires a <= b
    ensures |a| <= |b|
  {
    assert b == a + (b - a);
  }
}

/** The list operations of the resume editor: moving an item, splitting a bullet and merging two. */
module EditorOperations {
  import opened Sequences

  // ----- moving -----

  function Removed<T>(items: seq<T>, i: nat): seq<T>
    requires i < |items|
  {
    items[..i] + items[i + 1..]
  }

  predicate Moves<T>(items: seq<T>, from: int, to: int) {
    0 <= from < |items| && 0 <= to < |items| && from != to
  }

  /** The item at `from` is where `to` says and the others keep their order; nothing happens outside the list. */
  ghost predicate MovedTo<T>(items: seq<T>, from: int, to: int, r: seq<T>) {
    if Moves(items, from, to)
    then |r| == |items| && r[to] == items[from] && Removed(r, to) == Removed(items, from)
    else r == items
  }

  method MoveItem<T>(items: seq<T>, from: int, to: int) returns (r: seq<T>)
    ensures MovedTo(items, from, to, r)
  {
    if from < 0 || to < 0 || from >= |items| || to >= |items| || from == to {
      return items;
    }
    var next := items;
    var item := next[from];
    next := next[..from] + next[from + 1..];
    next := next[..to] + [item] + next[to..];
    assert Removed(next, to) == Removed(items, from);
    r := next;
  }

  function Moved<T>(items: seq<T>, from: int, to: int): (r: seq<T>)
    ensures MovedTo(items, from, to, r)
  {
    if Moves(items, from, to) then
      var r := InsertAt(Removed(items, from), to, items[from]);
      assert Removed(r, to) == Removed(items, from);
      r
    else items
  }

  /** The position of each item decides the list. */
  lemma MovedIsOne<T>(items: seq<T>, from: int, to: int, r: seq<T>, s: seq<T>)
    requires MovedTo(items, from, to, r) && MovedTo(items, from, to, s)
    ensures r == s
  {
    if Moves(items, from, to) {
      forall k | 0 <= k < |items| ensures r[k] == s[k] {
        if k < to {
          assert r[k] == Removed(r, to)[k] && s[k] == Removed(s, to)[k];
        } else if k > to {
          assert r[k] == Removed(r, to)[k - 1] && s[k] == Removed(s, to)[k - 1];
        }
      }
    }
  }

  /** Moving back undoes a move. */
  lemma MoveBack<T>(items: seq<T>, from: int, to: int)
    ensures Moved(Moved(items, from, to), to, from) == items
  {
    MovedIsOne(Moved(items, from, to), to, from, Moved(Moved(items, from, to), to, from), items);
  }

  lemma MovePermutes<T>(items: seq<T>, from: int, to: int)
    ensures multiset(Moved(items, from, to)) == multiset(items)
  {
    if Moves(items, from, to) {
      var rest := Removed(items, from);
      assert items == items[..from] + [items[from]] + items[from + 1..];
      assert rest == rest[..to] + rest[to..];
      calc {
        multiset(Moved(items, from, to));
        multiset(rest[..to]) + multiset{items[from]} + multiset(rest[to..]);
        multiset(rest) + multiset{items[from]};
        multiset(items);
      }
    }
  }

  // ----- splitting and merging -----

  const SEMICOLON: char := '\U{FF1B}'
  const FULL_STOP: char := '\U{3002}'

  predicate IsSeparator(c: char) {
    c == SEMICOLON || c == FULL_STOP
  }

  /** White space and line ends, as String.prototype.trim takes them. */
  predicate IsSpace(c: char) {
    || '\U{9}' <= c <= '\U{D}' || c == ' ' || c == '\U{A0}' || c == '\U{1680}' || '\U{2000}' <= c <= '\U{200A}'
    || c == '\U{2028}' || c == '\U{2029}' || c == '\U{202F}' || c == '\U{205F}' || c == '\U{3000}' || c == '\U{FEFF}'
  }

  function TrimStart(s: string): (r: string)
    ensures r == "" || !IsSpace(r[0])
    ensures |r| <= |s| && r == s[|s| - |r|..] && forall k :: 0 <= k < |s| - |r| ==> IsSpace(s[k])
  {
    if s != "" && IsSpace(s[0]) then TrimStart(s[1..]) else s
  }

  function TrimEnd(s: string): (r: string)
    ensures r == "" || !IsSpace(r[|r| - 1])
    ensures |r| <= |s| && r == s[..|r|] && forall k :: |r| <= k < |s| ==> IsSpace(s[k])
  {
    if s != "" && IsSpace(s[|s| - 1]) then TrimEnd(s[..|s| - 1]) else s
  }

  function Trim(s: string): string {
    TrimEnd(TrimStart(s))
  }

  predicate HasNoSeparator(s: string) {
    forall k :: 0 <= k < |s| ==> !IsSeparator(s[k])
  }

  /** The pieces between separators; `piece` is the one being read. */
  function Pieces(s: string, piece: string): seq<string> {
    if s == "" then [piece]
    else if IsSeparator(s[0]) then [piece] + Pieces(s[1..], "")
    else Pieces(s[1..], piece + [s[0]])
  }

  /** All pieces trimmed, without the empty ones. */
  function Kept(pieces: seq<string>): seq<string> {
    if pieces == [] then []
    else if Trim(pieces[0]) == "" then Kept(pieces[1..])
    else [Trim(pieces[0])] + Kept(pieces[1..])
  }

  function Parts(value: string): seq<string> {
    Kept(Pieces(value, ""))
  }

  function SplitBullet(bullets: seq<string>, index: int): seq<string> {
    if !(0 <= index < |bullets|) then bullets
    else
      var parts := Parts(bullets[index]);
      if |parts| < 2 then bullets else bullets[..index] + parts + bullets[index + 1..]
  }

  function MergeBullets(bullets: seq<string>, index: int): seq<string> {
    if index < 0 || index >= |bullets| - 1 then bullets
    else bullets[..index] + [bullets[index] + [SEMICOLON] + bullets[index + 1]] + bullets[index + 2..]
  }

  /** What a part of a split looks like. */
  predicate Clean(s: string) {
    s != "" && HasNoSeparator(s) && Trim(s) == s
  }

  lemma {:induction false} PiecesHaveNoSeparator(s: string, piece: string)
    requires HasNoSeparator(piece)
    ensures forall k :: 0 <= k < |Pieces(s, piece)| ==> HasNoSeparator(Pieces(s, piece)[k])
    decreases |s|
  {
    if s != "" {
      if IsSeparator(s[0]) {
        PiecesHaveNoSeparator(s[1..], "");
      } else {
        PiecesHaveNoSeparator(s[1..], piece + [s[0]]);
      }
    }
  }

  /** Trimming cuts a slice out of the text that has no space at either end. */
  lemma TrimIsSlice(s: string) returns (from: nat, to: nat)
    ensures from <= to <= |s| && Trim(s) == s[from..to]
    ensures forall k :: 0 <= k < |s| && !(from <= k < to) ==> IsSpace(s[k])
    ensures Trim(s) != "" ==> !IsSpace(Trim(s)[0]) && !IsSpace(Trim(s)[|Trim(s)| - 1])
  {
    hide IsSpace, TrimStart, TrimEnd;
    var start := TrimStart(s);
    var r := TrimEnd(start);
    from := |s| - |start|;
    to := from + |r|;
    assert start == s[from..];
    assert r == start[..|r|] == s[from..to];
  }

  lemma NothingToTrim(s: string)
    requires s == "" || (!IsSpace(s[0]) && !IsSpace(s[|s| - 1]))
    ensures Trim(s) == s
  {
    hide IsSpace;
  }

  lemma TrimKeeps(s: string)
    ensures Trim(Trim(s)) == Trim(s)
    ensures HasNoSeparator(s) ==> HasNoSeparator(Trim(s))
  {
    hide Trim, IsSpace, IsSeparator;
    var from, to := TrimIsSlice(s);
    NothingToTrim(Trim(s));
  }

  lemma {:induction false} KeptAreClean(pieces: seq<string>)
    requires forall k :: 0 <= k < |pieces| ==> HasNoSeparator(pieces[k])
    ensures forall k :: 0 <= k < |Kept(pieces)| ==> Clean(Kept(pieces)[k])
  {
    hide Trim, HasNoSeparator;
    if pieces != [] {
      TrimKeeps(pieces[0]);
      KeptAreClean(pieces[1..]);
    }
  }

  /** Every part of a split is clean. */
  lemma PartsAreClean(value: string)
    ensures forall k :: 0 <= k < |Parts(value)| ==> Clean(Parts(value)[k])
  {
    PiecesHaveNoSeparator(value, "");
    KeptAreClean(Pieces(value, ""));
  }

  lemma {:induction false} PiecesOfClean(s: string, piece: string)
    requires HasNoSeparator(s)
    ensures Pieces(s, piece) == [piece + s]
    decreases |s|
  {
    if s == "" {
      assert piece + s == piece;
    } else {
      PiecesOfClean(s[1..], piece + [s[0]]);
      assert piece + [s[0]] + s[1..] == piece + s;
    }
  }

  lemma {:induction false} PiecesOfPair(a: string, b: string, piece: string)
    requires HasNoSeparator(a) && HasNoSeparator(b)
    ensures Pieces(a + [SEMICOLON] + b, piece) == [piece + a, b]
    decreases |a|
  {
    var s := a + [SEMICOLON] + b;
    if a == "" {
      assert s[1..] == b && piece + a == piece;
      PiecesOfClean(b, "");
      assert "" + b == b;
    } else {
      assert s[0] == a[0] && s[1..] == a[1..] + [SEMICOLON] + b;
      PiecesOfPair(a[1..], b, piece + [a[0]]);
      assert piece + [a[0]] + a[1..] == piece + a;
    }
  }

  lemma PartsOfPair(a: string, b: string)
    requires Clean(a) && Clean(b)
    ensures Parts(a + [SEMICOLON] + b) == [a, b]
  {
    hide Trim, HasNoSeparator;
    PiecesOfPair(a, b, "");
    assert "" + a == a;
    assert Kept([a, b]) == [a] + Kept([b]) && Kept([b]) == [b] + Kept([]) by {
      assert [a, b][1..] == [b] && [b][1..] == [];
    }
  }

  /** Splitting a merged pair gives the two bullets back exactly when both look like parts of a split. */
  lemma SplitUndoesMerge(bullets: seq<string>, index: nat)
    requires index < |bullets| - 1
    ensures SplitBullet(MergeBullets(bullets, index), index) == bullets
            <==> Clean(bullets[index]) && Clean(bullets[index + 1])
  {
    hide Clean, Parts;
    var a, b := bullets[index], bullets[index + 1];
    var merged := MergeBullets(bullets, index);
    var parts := Parts(a + [SEMICOLON] + b);
    assert merged[index] == a + [SEMICOLON] + b && merged[..index] == bullets[..index];
    assert merged[index + 1..] == bullets[index + 2..];
    if Clean(a) && Clean(b) {
      PartsOfPair(a, b);
      assert bullets == bullets[..index] + [a, b] + bullets[index + 2..];
    }
    var back := SplitBullet(merged, index);
    if back == bullets {
      assert |parts| == 2;
      assert parts[0] == back[index] && parts[1] == back[index + 1];
      PartsAreClean(a + [SEMICOLON] + b);
    }
  }

  lemma PartsOfClean(s: string)
    requires Clean(s)
    ensures Parts(s) == [s]
  {
    hide Trim, HasNoSeparator;
    PiecesOfClean(s, "");
    assert "" + s == s;
    assert [s][1..] == [];
    assert Kept([s]) == [s] + Kept([]);
  }

  /** A part of a split does not split again. */
  lemma PartsDoNotSplit(value: string, part: string)
    requires part in Parts(value)
    ensures SplitBullet([part], 0) == [part]
  {
    hide Clean, Parts;
    PartsAreClean(value);
    PartsOfClean(part);
  }

  // ----- splitting a whole list -----

  /** The pieces with a separator between each two of them. */
  function Joined(pieces: seq<string>, separators: seq<char>): string
    requires |pieces| == |separators| + 1
  {
    if separators == [] then pieces[0]
    else pieces[0] + [separators[0]] + Joined(pieces[1..], separators[1..])
  }

  predicate AllSeparators(separators: seq<char>) {
    forall k :: 0 <= k < |separators| ==> separators[k] == '；' || separators[k] == '。'
  }

  lemma {:induction false} PiecesUpTo(a: string, c: char, rest: string, piece: string)
    requires HasNoSeparator(a) && (c == '；' || c == '。')
    ensures Pieces(a + [c] + rest, piece) == [piece + a] + Pieces(rest, "")
    decreases |a|
  {
    var s := a + [c] + rest;
    if a == "" {
      assert s[1..] == rest && piece + a == piece;
    } else {
      assert s[0] == a[0] && s[1..] == a[1..] + [c] + rest;
      PiecesUpTo(a[1..], c, rest, piece + [a[0]]);
      assert piece + [a[0]] + a[1..] == piece + a;
    }
  }

  /** Splitting undoes joining, piece by piece. */
  lemma {:induction false} PiecesOfJoined(pieces: seq<string>, separators: seq<char>)
    requires |pieces| == |separators| + 1 && AllSeparators(separators)
    requires forall k :: 0 <= k < |pieces| ==> HasNoSeparator(pieces[k])
    ensures Pieces(Joined(pieces, separators), "") == pieces
    decreases |separators|
  {
    hide HasNoSeparator;
    assert "" + pieces[0] == pieces[0];
    if separators == [] {
      PiecesOfClean(pieces[0], "");
    } else {
      PiecesOfJoined(pieces[1..], separators[1..]);
      PiecesUpTo(pieces[0], separators[0], Joined(pieces[1..], separators[1..]), "");
      assert pieces == [pieces[0]] + pieces[1..];
    }
  }

  /** Every text is such a list of pieces. */
  lemma {:induction false} EveryTextIsJoined(s: string, piece: string) returns (separators: seq<char>)
    ensures |Pieces(s, piece)| == |separators| + 1 && AllSeparators(separators)
    ensures Joined(Pieces(s, piece), separators) == piece + s
    decreases |s|
  {
    hide IsSeparator, AllSeparators, Joined;
    if s == "" {
      separators := [];
      assert piece + s == piece;
      OneIsItself([piece], separators);
    } else if IsSeparator(s[0]) {
      var rest := EveryTextIsJoined(s[1..], "");
      separators := [s[0]] + rest;
      assert Pieces(s, piece) == [piece] + Pieces(s[1..], "");
      hide Pieces;
      JoinedWith(piece, s[0], Pieces(s[1..], ""), rest);
      assert "" + s[1..] == s[1..] && piece + [s[0]] + s[1..] == piece + s;
    } else {
      separators := EveryTextIsJoined(s[1..], piece + [s[0]]);
      assert piece + [s[0]] + s[1..] == piece + s;
    }
  }

  lemma JoinedWith(piece: string, c: char, pieces: seq<string>, separators: seq<char>)
    requires |pieces| == |separators| + 1
    ensures Joined([piece] + pieces, [c] + separators) == piece + [c] + Joined(pieces, separators)
    ensures AllSeparators(separators) && IsSeparator(c) ==> AllSeparators([c] + separators)
  {
    assert ([piece] + pieces)[1..] == pieces && ([c] + separators)[1..] == separators;
  }

  lemma {:induction false} KeptOfClean(pieces: seq<string>)
    requires forall k :: 0 <= k < |pieces| ==> Clean(pieces[k])
    ensures Kept(pieces) == pieces
  {
    if pieces != [] {
      KeptOfClean(pieces[1..]);
    }
  }

  /**
   * A bullet that joins two or more clean texts, with either separator anywhere, is replaced by exactly those texts;
   * one that is a single clean text stays.
   */
  lemma SplitUndoesJoin(bullets: seq<string>, index: nat, pieces: seq<string>, separators: seq<char>)
    requires |pieces| == |separators| + 1 && AllSeparators(separators)
    requires forall k :: 0 <= k < |pieces| ==> Clean(pieces[k])
    requires index < |bullets| && bullets[index] == Joined(pieces, separators)
    ensures SplitBullet(bullets, index) == bullets[..index] + pieces + bullets[index + 1..]
  {
    hide Pieces, Kept, Joined, Clean;
    assert forall k :: 0 <= k < |pieces| ==> HasNoSeparator(pieces[k]) by {
      forall k | 0 <= k < |pieces| ensures HasNoSeparator(pieces[k]) {
        CleanHasNoSeparator(pieces[k]);
      }
    }
    PiecesOfJoined(pieces, separators);
    KeptOfClean(pieces);
    if |pieces| == 1 {
      OneIsItself(pieces, separators);
      assert bullets == bullets[..index] + pieces + bullets[index + 1..];
    }
  }

  lemma CleanHasNoSeparator(s: string)
    requires Clean(s)
    ensures HasNoSeparator(s)
  {
  }

  lemma OneIsItself(pieces: seq<string>, separators: seq<char>)
    requires |pieces| == 1 && separators == []
    ensures Joined(pieces, separators) == pieces[0] && AllSeparators(separators)
  {
  }
}

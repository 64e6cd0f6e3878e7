/**
 * The backfill of migration 0015: every stored requirement of a job description gets the span of the
 * source text it was taken from, first fit among the occurrences of its text.
 */
module SpanBackfill {
  import opened Wrappers

  /** A job description and its owner. */
  datatype Job = Job(owner: string, id: string)

  datatype Requirement = Requirement(id: string, job: Job, text: string)

  /** What rows share that compete for the same occurrences. */
  datatype Key = Key(job: Job, text: string)

  datatype Span = Span(start: nat, end: nat)

  datatype Explicitness = Explicit | Implicit

  datatype Provenance = Provenance(span: Span, source: string, explicitness: Explicitness)

  datatype BackfillError = NoSourceText

  // ----- occurrences -----

  predicate OccursAt(raw: string, text: string, k: nat) {
    k + |text| <= |raw| && raw[k..k + |text|] == text
  }

  /** Python's `raw.find(text, from)`. */
  function Find(raw: string, text: string, from: nat): (k: int)
    ensures k < 0 ==> forall j :: from <= j ==> !OccursAt(raw, text, j)
    ensures 0 <= k ==> from <= k && OccursAt(raw, text, k) && forall j :: from <= j < k ==> !OccursAt(raw, text, j)
    decreases |raw| + 1 - from
  {
    if from + |text| > |raw| then -1
    else if OccursAt(raw, text, from) then from
    else Find(raw, text, from + 1)
  }

  predicate Apart(s: Span, t: Span) {
    s.end <= t.start || t.end <= s.start
  }

  predicate Fits(used: seq<Span>, s: Span) {
    forall i :: 0 <= i < |used| ==> Apart(s, used[i])
  }

  /** An occurrence that is apart from all spans in use. */
  predicate FreeAt(raw: string, text: string, used: seq<Span>, k: nat) {
    OccursAt(raw, text, k) && Fits(used, Span(k, k + |text|))
  }

  /** `start` is the leftmost free occurrence; -1 when there is none. */
  ghost predicate LeftmostFree(raw: string, text: string, used: seq<Span>, start: int) {
    && -1 <= start
    && (0 <= start ==> FreeAt(raw, text, used, start))
    && forall j: nat :: FreeAt(raw, text, used, j) ==> 0 <= start <= j
  }

  /** The scan for one row: occurrences from the left until one is apart from all spans in use. */
  method FirstFit(raw: string, text: string, used: seq<Span>) returns (start: int)
    ensures LeftmostFree(raw, text, used, start)
  {
    start := -1;
    var searchFrom := 0;
    while true
      invariant searchFrom <= |raw| + 1
      invariant forall j: nat :: j < searchFrom ==> !FreeAt(raw, text, used, j)
      decreases |raw| + 1 - searchFrom
    {
      var candidate := Find(raw, text, searchFrom);
      if candidate < 0 {
        break;
      }
      if Fits(used, Span(candidate, candidate + |text|)) {
        start := candidate;
        break;
      }
      searchFrom := candidate + 1;
    }
  }

  // ----- what the rows of one key get -----

  /** The next occurrence that starts at or after the end of the one before; -1 when there is none. */
  function NthStart(raw: string, text: string, n: nat): int {
    if n == 0 then Find(raw, text, 0)
    else
      var before := NthStart(raw, text, n - 1);
      if before < 0 then -1 else Find(raw, text, before + |text|)
  }

  /** The spans in use after `n` rows of one key. */
  function Taken(raw: string, text: string, n: nat): seq<Span> {
    if n == 0 then []
    else
      var s := NthStart(raw, text, n - 1);
      if s < 0 then Taken(raw, text, n - 1) else Taken(raw, text, n - 1) + [Span(s, s + |text|)]
  }

  function Given(raw: string, text: string, n: nat): Provenance {
    var s := NthStart(raw, text, n);
    if s < 0 then Provenance(Span(0, |raw|), raw, Implicit)
    else Provenance(Span(s, s + |text|), text, Explicit)
  }

  lemma {:induction false} NoneAfterNone(raw: string, text: string, m: nat, n: nat)
    requires m <= n && NthStart(raw, text, m) < 0
    ensures NthStart(raw, text, n) < 0
    decreases n
  {
    if m < n {
      NoneAfterNone(raw, text, m, n - 1);
    }
  }

  /** Later spans lie to the right of earlier ones. */
  lemma {:induction false} LaterIsRight(raw: string, text: string, m: nat, n: nat)
    requires m < n && 0 <= NthStart(raw, text, n)
    ensures 0 <= NthStart(raw, text, m) && NthStart(raw, text, m) + |text| <= NthStart(raw, text, n)
    decreases n
  {
    if m < n - 1 {
      LaterIsRight(raw, text, m, n - 1);
    }
  }

  /** While occurrences are left, the spans in use are the leftmost ones one after another. */
  lemma {:induction false} TakenAre(raw: string, text: string, n: nat)
    requires n == 0 || 0 <= NthStart(raw, text, n - 1)
    ensures |Taken(raw, text, n)| == n
    ensures forall i :: 0 <= i < n ==>
                          0 <= NthStart(raw, text, i)
                          && Taken(raw, text, n)[i] == Span(NthStart(raw, text, i), NthStart(raw, text, i) + |text|)
  {
    hide NthStart;
    if n > 1 {
      LaterIsRight(raw, text, n - 2, n - 1);
    }
    if n != 0 {
      TakenAre(raw, text, n - 1);
    }
  }

  /** An occurrence that fits is not before the next leftmost one. */
  lemma {:induction false} FitIsRight(raw: string, text: string, n: nat, j: nat)
    requires text != "" && FreeAt(raw, text, Taken(raw, text, n), j)
    ensures 0 <= NthStart(raw, text, n) <= j
  {
    if n != 0 {
      var taken := Taken(raw, text, n - 1);
      assert Fits(taken, Span(j, j + |text|)) by {
        assert forall i :: 0 <= i < |taken| ==> Taken(raw, text, n)[i] == taken[i];
      }
      FitIsRight(raw, text, n - 1, j);
      var s := NthStart(raw, text, n - 1);
      assert Taken(raw, text, n)[|taken|] == Span(s, s + |text|);
    }
  }

  /** The next leftmost occurrence fits. */
  lemma NextFits(raw: string, text: string, n: nat)
    requires 0 <= NthStart(raw, text, n)
    ensures FreeAt(raw, text, Taken(raw, text, n), NthStart(raw, text, n))
  {
    if n != 0 {
      LaterIsRight(raw, text, n - 1, n);
    }
    TakenAre(raw, text, n);
    forall i | 0 <= i < n
      ensures Apart(Span(NthStart(raw, text, n), NthStart(raw, text, n) + |text|), Taken(raw, text, n)[i])
    {
      LaterIsRight(raw, text, i, n);
    }
  }

  /** An empty text is found at the start every time. */
  lemma {:induction false} EmptyText(raw: string, n: nat)
    ensures NthStart(raw, "", n) == 0
  {
    assert OccursAt(raw, "", 0);
    if n != 0 {
      EmptyText(raw, n - 1);
    }
  }

  /** First fit from the left end is the leftmost occurrence after the last span given. */
  lemma FirstFitIsNext(raw: string, text: string, n: nat, start: int)
    requires LeftmostFree(raw, text, Taken(raw, text, n), start)
    ensures 0 <= start || 0 <= NthStart(raw, text, n) ==> start == NthStart(raw, text, n)
  {
    hide FreeAt, NthStart, Taken;
    if 0 <= NthStart(raw, text, n) {
      NextFits(raw, text, n);
    }
    if text == "" {
      EmptyText(raw, n);
    } else if 0 <= start {
      FitIsRight(raw, text, n, start);
    }
  }

  // ----- all rows -----

  function KeyOf(r: Requirement): Key {
    Key(r.job, r.text)
  }

  /** How many of the first `n` rows have the key. */
  function Rows(rows: seq<Requirement>, key: Key, n: nat): nat
    requires n <= |rows|
  {
    if n == 0 then 0 else Rows(rows, key, n - 1) + if KeyOf(rows[n - 1]) == key then 1 else 0
  }

  predicate HasSource(jobs: map<Job, Option<string>>, job: Job)
    requires job in jobs
  {
    jobs[job].Some? && jobs[job].value != ""
  }

  function Used(consumed: map<Key, seq<Span>>, key: Key): seq<Span> {
    if key in consumed then consumed[key] else []
  }

  /** What row `i` gets: the number of earlier rows with its key decides which occurrence. */
  function GivenRow(jobs: map<Job, Option<string>>, rows: seq<Requirement>, i: nat): Provenance
    requires i < |rows| && rows[i].job in jobs && HasSource(jobs, rows[i].job)
  {
    Given(jobs[rows[i].job].value, rows[i].text, Rows(rows, KeyOf(rows[i]), i))
  }

  ghost predicate Tracks(jobs: map<Job, Option<string>>, rows: seq<Requirement>, n: nat, consumed: map<Key, seq<Span>>)
    requires n <= |rows|
  {
    forall key: Key :: key.job in jobs && HasSource(jobs, key.job) ==>
                         Used(consumed, key) == Taken(jobs[key.job].value, key.text, Rows(rows, key, n))
  }

  /** One more row: its key's spans grow by the one it got, all others stay. */
  lemma TracksOneMore(jobs: map<Job, Option<string>>, rows: seq<Requirement>, n: nat, before: map<Key, seq<Span>>,
                      given: Provenance)
    requires n < |rows| && rows[n].job in jobs && HasSource(jobs, rows[n].job)
    requires Tracks(jobs, rows, n, before) && given == GivenRow(jobs, rows, n)
    ensures Tracks(jobs, rows, n + 1, Consumed(before, KeyOf(rows[n]), given))
  {
    hide Taken, Given, Rows;
    forall key: Key | key.job in jobs && HasSource(jobs, key.job)
      ensures Used(Consumed(before, KeyOf(rows[n]), given), key)
              == Taken(jobs[key.job].value, key.text, Rows(rows, key, n + 1))
    {
      assert Used(before, key) == Taken(jobs[key.job].value, key.text, Rows(rows, key, n));
      OneMoreRow(rows, key, n);
      if key == KeyOf(rows[n]) {
        OneMoreTaken(jobs[key.job].value, key.text, Rows(rows, key, n));
      }
    }
  }

  function Consumed(before: map<Key, seq<Span>>, key: Key, given: Provenance): map<Key, seq<Span>> {
    if given.explicitness.Implicit? then before else before[key := Used(before, key) + [given.span]]
  }

  lemma TracksNoRows(jobs: map<Job, Option<string>>, rows: seq<Requirement>)
    ensures Tracks(jobs, rows, 0, map[])
  {
  }

  lemma OneMoreRow(rows: seq<Requirement>, key: Key, n: nat)
    requires n < |rows|
    ensures Rows(rows, key, n + 1) == Rows(rows, key, n) + if KeyOf(rows[n]) == key then 1 else 0
  {
  }

  lemma OneMoreTaken(raw: string, text: string, n: nat)
    ensures var given := Given(raw, text, n);
            Taken(raw, text, n + 1)
            == Taken(raw, text, n) + if given.explicitness.Implicit? then [] else [given.span]
  {
    hide NthStart;
  }

  /** A whole backfill, written for `rows`. */
  ghost predicate Backfilled(jobs: map<Job, Option<string>>, rows: seq<Requirement>, written: seq<Provenance>) {
    && |written| == |rows|
    && forall i :: 0 <= i < |rows| ==>
                     && rows[i].job in jobs && HasSource(jobs, rows[i].job)
                     && written[i] == GivenRow(jobs, rows, i)
  }

  /**
   * `jobs` gives each job description's source text, which the query joins to every requirement;
   * `rows` come in the order of the query.
   */
  method Backfill(jobs: map<Job, Option<string>>, rows: seq<Requirement>)
    returns (r: Result<seq<Provenance>, BackfillError>)
    requires forall i :: 0 <= i < |rows| ==> rows[i].job in jobs
    ensures r.Ok? <==> forall i :: 0 <= i < |rows| ==> HasSource(jobs, rows[i].job)
    ensures r.Ok? ==> Backfilled(jobs, rows, r.value)
  {
    hide Taken, Given, Rows, LeftmostFree;
    var consumed: map<Key, seq<Span>> := map[];
    var written: seq<Provenance> := [];
    TracksNoRows(jobs, rows);
    for n := 0 to |rows|
      invariant |written| == n
      invariant forall i :: 0 <= i < n ==> HasSource(jobs, rows[i].job) && written[i] == GivenRow(jobs, rows, i)
      invariant Tracks(jobs, rows, n, consumed)
    {
      var row := rows[n];
      if jobs[row.job].None? || jobs[row.job].value == "" {
        return Err(NoSourceText);
      }
      var raw := jobs[row.job].value;
      var key := KeyOf(row);
      ghost var before := consumed;
      var start := FirstFit(raw, row.text, Used(consumed, key));
      ghost var given := GivenRow(jobs, rows, n);
      FirstFitGiven(raw, row.text, Rows(rows, key, n), start);
      TracksOneMore(jobs, rows, n, before, given);
      if start < 0 {
        written := written + [Provenance(Span(0, |raw|), raw[0..|raw|], Implicit)];
      } else {
        var end := start + |row.text|;
        consumed := consumed[key := Used(consumed, key) + [Span(start, end)]];
        written := written + [Provenance(Span(start, end), raw[start..end], Explicit)];
      }
    }
    r := Ok(written);
  }

  lemma FirstFitGiven(raw: string, text: string, n: nat, start: int)
    requires LeftmostFree(raw, text, Taken(raw, text, n), start)
    ensures Given(raw, text, n) == if start < 0 then Provenance(Span(0, |raw|), raw[0..|raw|], Implicit)
                                   else Provenance(Span(start, start + |text|), text, Explicit)
    ensures start < 0 || OccursAt(raw, text, start)
  {
    FirstFitIsNext(raw, text, n, start);
    assert raw[0..|raw|] == raw;
  }

  // ----- what the rows have in the end -----

  /** The stored source is the slice the span names; an explicit one is the requirement's text. */
  lemma SourceIsSlice(jobs: map<Job, Option<string>>, rows: seq<Requirement>, written: seq<Provenance>, i: nat)
    requires Backfilled(jobs, rows, written) && i < |rows|
    ensures var raw := jobs[rows[i].job].value;
            var w := written[i];
            && w.span.start <= w.span.end <= |raw|
            && w.source == raw[w.span.start..w.span.end]
            && (w.explicitness.Explicit? ==> w.source == rows[i].text)
            && (w.explicitness.Implicit? ==> w.span == Span(0, |raw|) && rows[i].text != "")
  {
    var raw := jobs[rows[i].job].value;
    var rank := Rows(rows, KeyOf(rows[i]), i);
    NthStartOccurs(raw, rows[i].text, rank);
    if rows[i].text == "" {
      EmptyText(raw, rank);
    }
    assert raw[0..|raw|] == raw;
  }

  lemma NthStartOccurs(raw: string, text: string, n: nat)
    ensures 0 <= NthStart(raw, text, n) ==> OccursAt(raw, text, NthStart(raw, text, n))
  {
  }

  lemma {:induction false} RowsGrow(rows: seq<Requirement>, key: Key, m: nat, n: nat)
    requires m <= n <= |rows|
    ensures Rows(rows, key, m) <= Rows(rows, key, n)
    decreases n
  {
    if m < n {
      RowsGrow(rows, key, m, n - 1);
    }
  }

  /** Rows of one key never share a character: the explicit spans lie one after another in the order of the rows. */
  lemma SpansAreApart(jobs: map<Job, Option<string>>, rows: seq<Requirement>, written: seq<Provenance>, i: nat, j: nat)
    requires Backfilled(jobs, rows, written) && i < j < |rows|
    requires rows[i].job == rows[j].job && rows[i].text == rows[j].text
    requires written[j].explicitness.Explicit?
    ensures written[i].explicitness.Explicit? && written[i].span.end <= written[j].span.start
  {
    hide NthStart, Rows;
    var key := KeyOf(rows[i]);
    OneMoreRow(rows, key, i);
    RowsGrow(rows, key, i + 1, j);
    LaterIsRight(jobs[key.job].value, key.text, Rows(rows, key, i), Rows(rows, key, j));
  }

  lemma {:induction false} TakenAt(raw: string, text: string, n: nat, k: nat)
    requires k < |Taken(raw, text, n)|
    ensures k < n && 0 <= NthStart(raw, text, k)
    ensures Taken(raw, text, n)[k] == Span(NthStart(raw, text, k), NthStart(raw, text, k) + |text|)
  {
    hide NthStart;
    if 0 <= NthStart(raw, text, n - 1) {
      TakenAre(raw, text, n);
    } else {
      TakenAt(raw, text, n - 1, k);
    }
  }

  lemma {:induction false} RowOfRank(rows: seq<Requirement>, key: Key, n: nat, rank: nat) returns (j: nat)
    requires n <= |rows| && rank < Rows(rows, key, n)
    ensures j < n && KeyOf(rows[j]) == key && Rows(rows, key, j) == rank
    decreases n
  {
    if KeyOf(rows[n - 1]) == key && Rows(rows, key, n - 1) == rank {
      j := n - 1;
    } else {
      j := RowOfRank(rows, key, n - 1, rank);
    }
  }

  /**
   * An occurrence that a row has passed over, be it for one further right or for none, overlaps the span of an
   * earlier row of the same job description and text.
   */
  lemma PassedOverIsTaken(jobs: map<Job, Option<string>>, rows: seq<Requirement>, written: seq<Provenance>,
                          i: nat, k: nat)
    requires Backfilled(jobs, rows, written) && i < |rows| && rows[i].text != ""
    requires OccursAt(jobs[rows[i].job].value, rows[i].text, k)
    requires written[i].explicitness.Implicit? || k < written[i].span.start
    ensures exists j :: 0 <= j < i && rows[j].job == rows[i].job && rows[j].text == rows[i].text
                        && written[j].explicitness.Explicit?
                        && written[j].span.start < k + |rows[i].text| && k < written[j].span.end
  {
    hide NthStart, Taken, Rows, OccursAt;
    var raw, text, key := jobs[rows[i].job].value, rows[i].text, KeyOf(rows[i]);
    var rank := Rows(rows, key, i);
    var taken := Taken(raw, text, rank);
    if FreeAt(raw, text, taken, k) {
      FitIsRight(raw, text, rank, k);
      assert false;
    }
    var t :| 0 <= t < |taken| && !Apart(Span(k, k + |text|), taken[t]);
    TakenAt(raw, text, rank, t);
    var j := RowOfRank(rows, key, i, t);
    assert written[j] == Given(raw, text, t);
  }

  // ----- as many as there can be -----

  /** Starts of occurrences no two of which overlap. */
  ghost predicate NonOverlapping(raw: string, text: string, starts: set<nat>) {
    && (forall k :: k in starts ==> OccursAt(raw, text, k))
    && forall k, l :: k in starts && l in starts && k < l ==> k + |text| <= l
  }

  /** `m` is the most occurrences of `text` that fit into `raw` without overlap. */
  ghost predicate IsMaximum(raw: string, text: string, m: nat) {
    && (exists starts :: NonOverlapping(raw, text, starts) && |starts| == m)
    && forall starts :: NonOverlapping(raw, text, starts) ==> |starts| <= m
  }

  lemma {:induction false} GreatestExists(s: set<nat>) returns (k: nat)
    requires s != {}
    ensures k in s && forall l :: l in s ==> l <= k
  {
    var x :| x in s && true;
    k := x;
    var rest := s - {x};
    if rest != {} {
      var g := GreatestExists(rest);
      k := if g < x then x else g;
      assert forall l :: l in s ==> l == x || l in rest;
    } else {
      assert s == {x};
    }
  }

  /** The next leftmost start is not past any occurrence after the last one. */
  lemma NotPast(raw: string, text: string, n: nat, k: nat)
    requires OccursAt(raw, text, k)
    requires n == 0 || 0 <= NthStart(raw, text, n - 1) <= k - |text|
    ensures 0 <= NthStart(raw, text, n) <= k
  {
  }

  /** The leftmost choice stays ahead: `m` occurrences without overlap leave it `m` starts, the last no later. */
  lemma {:induction false} LeftmostStaysAhead(raw: string, text: string, starts: set<nat>, greatest: nat)
    requires text != "" && NonOverlapping(raw, text, starts)
    requires greatest in starts && forall k :: k in starts ==> k <= greatest
    ensures 0 <= NthStart(raw, text, |starts| - 1) <= greatest
    decreases |starts|
  {
    hide NthStart, OccursAt;
    var rest := starts - {greatest};
    if rest == {} {
      assert starts == {greatest};
    } else {
      var before := GreatestExists(rest);
      LeftmostStaysAhead(raw, text, rest, before);
    }
    NotPast(raw, text, |rest|, greatest);
  }

  /** The first `n` leftmost starts. */
  function Starts(raw: string, text: string, n: nat): set<nat> {
    if n == 0 then {}
    else
      var s := NthStart(raw, text, n - 1);
      if s < 0 then Starts(raw, text, n - 1) else Starts(raw, text, n - 1) + {s}
  }

  lemma {:induction false} EndsBefore(raw: string, text: string, n: nat, k: nat, next: nat)
    requires k in Starts(raw, text, n) && n <= next && 0 <= NthStart(raw, text, next)
    ensures OccursAt(raw, text, k) && k + |text| <= NthStart(raw, text, next)
    decreases n
  {
    hide NthStart;
    if k == NthStart(raw, text, n - 1) {
      NthStartOccurs(raw, text, n - 1);
      LaterIsRight(raw, text, n - 1, next);
    } else {
      EndsBefore(raw, text, n - 1, k, next);
    }
  }

  /** The leftmost starts are themselves free of overlap, and all different. */
  lemma {:induction false} StartsDoNotOverlap(raw: string, text: string, n: nat)
    requires text != "" && (n == 0 || 0 <= NthStart(raw, text, n - 1))
    ensures NonOverlapping(raw, text, Starts(raw, text, n)) && |Starts(raw, text, n)| == n
  {
    hide NthStart, OccursAt;
    if n != 0 {
      if n > 1 {
        LaterIsRight(raw, text, n - 2, n - 1);
      }
      StartsDoNotOverlap(raw, text, n - 1);
      NthStartOccurs(raw, text, n - 1);
      var earlier := Starts(raw, text, n - 1);
      forall k | k in earlier ensures k + |text| <= NthStart(raw, text, n - 1) {
        EndsBefore(raw, text, n - 1, k, n - 1);
      }
    }
  }

  /** The leftmost choice runs out exactly at the maximum. */
  lemma RunsOutAtMaximum(raw: string, text: string, m: nat, n: nat)
    requires text != "" && IsMaximum(raw, text, m)
    ensures 0 <= NthStart(raw, text, n) <==> n < m
  {
    hide NthStart, NonOverlapping;
    if n < m {
      var starts :| NonOverlapping(raw, text, starts) && |starts| == m;
      var greatest := GreatestExists(starts);
      LeftmostStaysAhead(raw, text, starts, greatest);
      if NthStart(raw, text, n) < 0 {
        NoneAfterNone(raw, text, n, m - 1);
      }
    } else if 0 <= NthStart(raw, text, n) {
      StartsDoNotOverlap(raw, text, n + 1);
    }
  }

  /** Among the first `n` rows, how many of the key were marked explicit. */
  function ExplicitRows(rows: seq<Requirement>, written: seq<Provenance>, key: Key, n: nat): nat
    requires n <= |rows| == |written|
  {
    if n == 0 then 0
    else ExplicitRows(rows, written, key, n - 1) +
         if KeyOf(rows[n - 1]) == key && written[n - 1].explicitness.Explicit? then 1 else 0
  }

  function Min(a: nat, b: nat): nat {
    if a < b then a else b
  }

  /** As many rows of a key are explicit as there are rows, or occurrences without overlap, whichever is less. */
  lemma {:induction false} AsManyAsPossible(jobs: map<Job, Option<string>>, rows: seq<Requirement>,
                                            written: seq<Provenance>, key: Key, m: nat, n: nat)
    requires Backfilled(jobs, rows, written) && n <= |rows|
    requires key.job in jobs && HasSource(jobs, key.job) && key.text != ""
    requires IsMaximum(jobs[key.job].value, key.text, m)
    ensures ExplicitRows(rows, written, key, n) == Min(Rows(rows, key, n), m)
    decreases n
  {
    hide IsMaximum, NthStart, OccursAt;
    if n != 0 {
      AsManyAsPossible(jobs, rows, written, key, m, n - 1);
      RunsOutAtMaximum(jobs[key.job].value, key.text, m, Rows(rows, key, n - 1));
    }
  }

  /** There is always such a maximum. */
  lemma MaximumExists(raw: string, text: string)
    requires text != ""
    ensures exists m :: IsMaximum(raw, text, m)
  {
    hide NonOverlapping;
    var m := Exhausted(raw, text, 0);
    StartsDoNotOverlap(raw, text, m);
    forall starts | NonOverlapping(raw, text, starts) ensures |starts| <= m {
      NoMoreThan(raw, text, starts, m);
    }
    assert IsMaximum(raw, text, m);
  }

  /** The leftmost choice runs out. */
  lemma {:induction false} Exhausted(raw: string, text: string, n: nat) returns (m: nat)
    requires text != "" && (n == 0 || 0 <= NthStart(raw, text, n - 1))
    ensures NthStart(raw, text, m) < 0 && (m == 0 || 0 <= NthStart(raw, text, m - 1))
    decreases |raw| - if n == 0 then -1 else NthStart(raw, text, n - 1)
  {
    hide NthStart;
    m := n;
    if 0 <= NthStart(raw, text, n) {
      if n != 0 {
        LaterIsRight(raw, text, n - 1, n);
      }
      NthStartOccurs(raw, text, n);
      m := Exhausted(raw, text, n + 1);
    }
  }

  lemma NoMoreThan(raw: string, text: string, starts: set<nat>, m: nat)
    requires text != "" && NonOverlapping(raw, text, starts) && NthStart(raw, text, m) < 0
    ensures |starts| <= m
  {
    hide NthStart;
    if |starts| > m {
      var greatest := GreatestExists(starts);
      LeftmostStaysAhead(raw, text, starts, greatest);
      NoneAfterNone(raw, text, m, |starts| - 1);
    }
  }

  /** Rows with an empty text are all explicit, each at the start. */
  lemma EmptyTextIsExplicit(jobs: map<Job, Option<string>>, rows: seq<Requirement>, written: seq<Provenance>, i: nat)
    requires Backfilled(jobs, rows, written) && i < |rows| && rows[i].text == ""
    ensures written[i] == Provenance(Span(0, 0), "", Explicit)
  {
    EmptyText(jobs[rows[i].job].value, Rows(rows, KeyOf(rows[i]), i));
  }
}

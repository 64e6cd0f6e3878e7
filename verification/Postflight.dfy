/** Validation of a model's output against the ids and ranges that the input allows. */
module Postflight {
  import opened Sequences
  import opened Wrappers

  datatype Category = Direct | Transferable | NeedsEvidence | Gap

  datatype Range = Range(start: int, end: int)

  datatype Match = Match(requirementRef: string, factRefs: seq<string>)

  datatype SuggestionSource = SuggestionSource(requirementRef: string, category: Category, factRefs: seq<string>,
                                               targetPath: string, originalHash: string)

  datatype Suggestion = Suggestion(requirementRef: string, targetPath: string, originalHash: string,
                                   claims: seq<seq<string>>)

  datatype FactCandidate = FactCandidate(sourceAnswerId: string, sourceRange: Range)

  datatype Requirement = Requirement(category: string, sourceRange: Range)

  /** A drafted section: its type, and the fact references of each claim of each bullet. */
  datatype DraftSection = DraftSection(kind: string, bullets: seq<seq<seq<string>>>)

  datatype Input =
    | IntakeInput(answerId: string, answerLength: nat, factIds: set<string>)
    | ComposeInput(factIds: set<string>, allowedTypes: set<string>)
    | ParseInput(textLength: nat, allowedCategories: set<string>)
    | MatchInput(requirementIds: seq<string>, factIds: set<string>)
    | SuggestInput(sources: seq<SuggestionSource>, factIds: set<string>, confirmedIds: set<string>)

  /** An output that has the shape its workflow asks for, or one that the schema reports as malformed. */
  datatype Output =
    | IntakeOutput(candidates: seq<FactCandidate>, related: seq<string>)
    | ComposeOutput(sections: seq<DraftSection>)
    | ParseOutput(requirements: seq<Requirement>)
    | MatchOutput(matches: seq<Match>)
    | SuggestOutput(suggestions: seq<Suggestion>)
    | Malformed(errors: nat)

  datatype Feedback = SchemaFeedback | UnknownReference | RangeInvalid | NotAllowed | CoverageInvalid

  const MAX_FEEDBACK := 20

  predicate Shaped(input: Input, output: Output) {
    match input
    case IntakeInput(_, _, _) => output.IntakeOutput?
    case ComposeInput(_, _) => output.ComposeOutput?
    case ParseInput(_, _) => output.ParseOutput?
    case MatchInput(_, _) => output.MatchOutput?
    case SuggestInput(_, _, _) => output.SuggestOutput?
  }

  predicate ValidRange(range: Range, length: nat) {
    0 <= range.start < range.end <= length
  }

  predicate AllIn(refs: seq<string>, allowed: set<string>) {
    forall r :: r in refs ==> r in allowed
  }

  function Refs(matches: seq<Match>): (r: seq<string>)
    ensures |r| == |matches| && forall i :: 0 <= i < |r| ==> r[i] == matches[i].requirementRef
  {
    seq(|matches|, i requires 0 <= i < |matches| => matches[i].requirementRef)
  }

  /** A match output is right when it treats each confirmed requirement once and cites confirmed facts only. */
  ghost predicate MatchesConfirmed(requirementIds: seq<string>, factIds: set<string>, matches: seq<Match>) {
    && multiset(Refs(matches)) == multiset(requirementIds) && NoDup(requirementIds)
    && forall i :: 0 <= i < |matches| ==> AllIn(matches[i].factRefs, factIds)
  }

  /** The source that `new Map(...)` keeps for a key: the last one with it. */
  function SourceOf(sources: seq<SuggestionSource>, s: Suggestion): Option<SuggestionSource> {
    if sources == [] then None
    else
      var last := sources[|sources| - 1];
      if last.requirementRef == s.requirementRef && last.targetPath == s.targetPath
         && last.originalHash == s.originalHash
      then Some(last)
      else SourceOf(sources[..|sources| - 1], s)
  }

  predicate Improvable(category: Category) {
    category == Transferable || category == NeedsEvidence
  }

  predicate SuggestionConfirmed(input: Input, s: Suggestion)
    requires input.SuggestInput?
  {
    && s.requirementRef in input.confirmedIds
    && SourceOf(input.sources, s).Some? && Improvable(SourceOf(input.sources, s).value.category)
    && forall i :: 0 <= i < |s.claims| ==> AllIn(s.claims[i], input.factIds)
  }

  /** What an accepted output may refer to, workflow by workflow. */
  ghost predicate References(input: Input, output: Output)
    requires Shaped(input, output)
  {
    match input
    case IntakeInput(answerId, length, facts) =>
      && (forall i :: 0 <= i < |output.candidates| ==>
            output.candidates[i].sourceAnswerId == answerId && ValidRange(output.candidates[i].sourceRange, length))
      && AllIn(output.related, facts)
    case ComposeInput(facts, types) =>
      forall i :: 0 <= i < |output.sections| ==>
        output.sections[i].kind in types && DraftCites(output.sections[i].bullets, facts)
    case ParseInput(length, categories) =>
      forall i :: 0 <= i < |output.requirements| ==>
        output.requirements[i].category in categories && ValidRange(output.requirements[i].sourceRange, length)
    case MatchInput(ids, facts) => MatchesConfirmed(ids, facts, output.matches)
    case SuggestInput(sources, facts, ids) =>
      && (forall i :: 0 <= i < |sources| ==> sources[i].requirementRef in ids && AllIn(sources[i].factRefs, facts))
      && forall i :: 0 <= i < |output.suggestions| ==> SuggestionConfirmed(input, output.suggestions[i])
  }

  predicate DraftCites(bullets: seq<seq<seq<string>>>, facts: set<string>) {
    forall b :: 0 <= b < |bullets| ==> forall c :: 0 <= c < |bullets[b]| ==> AllIn(bullets[b][c], facts)
  }

  // ----- the failures, in the order in which they are found -----

  /** The failures of each item, one item after another. */
  function Gathered<T(!new)>(items: seq<T>, feedback: T -> seq<Feedback>): seq<Feedback> {
    if items == [] then [] else Gathered(items[..|items| - 1], feedback) + feedback(items[|items| - 1])
  }

  lemma GatherOne<T(!new)>(items: seq<T>, n: nat, feedback: T -> seq<Feedback>)
    requires n < |items|
    ensures Gathered(items[..n + 1], feedback) == Gathered(items[..n], feedback) + feedback(items[n])
  {
    assert items[..n + 1][..n] == items[..n];
  }

  lemma {:induction false} GatheredNone<T(!new)>(items: seq<T>, feedback: T -> seq<Feedback>)
    ensures Gathered(items, feedback) == [] <==> forall i :: 0 <= i < |items| ==> feedback(items[i]) == []
  {
    if items != [] {
      GatheredNone(items[..|items| - 1], feedback);
    }
  }

  function When(wrong: bool, failure: Feedback): seq<Feedback> {
    if wrong then [failure] else []
  }

  /** One failure for each reference that is not allowed. */
  function RefFeedback(refs: seq<string>, allowed: set<string>): seq<Feedback> {
    Gathered(refs, (ref: string) => When(ref !in allowed, UnknownReference))
  }

  function ClaimFeedback(claims: seq<seq<string>>, facts: set<string>): seq<Feedback> {
    Gathered(claims, (refs: seq<string>) => RefFeedback(refs, facts))
  }

  function DraftFeedback(bullets: seq<seq<seq<string>>>, facts: set<string>): seq<Feedback> {
    Gathered(bullets, (claims: seq<seq<string>>) => ClaimFeedback(claims, facts))
  }

  function CandidateFeedback(c: FactCandidate, answerId: string, length: nat): seq<Feedback> {
    When(c.sourceAnswerId != answerId, UnknownReference) + When(!ValidRange(c.sourceRange, length), RangeInvalid)
  }

  function SectionFeedback(s: DraftSection, types: set<string>, facts: set<string>): seq<Feedback> {
    When(s.kind !in types, NotAllowed) + DraftFeedback(s.bullets, facts)
  }

  function RequirementFeedback(r: Requirement, categories: set<string>, length: nat): seq<Feedback> {
    When(r.category !in categories, NotAllowed) + When(!ValidRange(r.sourceRange, length), RangeInvalid)
  }

  /** The first `n` matches; a requirement met before counts as unknown. */
  function MatchFeedback(ids: seq<string>, facts: set<string>, matches: seq<Match>, n: nat): seq<Feedback>
    requires n <= |matches|
  {
    if n == 0 then []
    else
      var ref := matches[n - 1].requirementRef;
      MatchFeedback(ids, facts, matches, n - 1)
      + When(ref !in ids || ref in Refs(matches)[..n - 1], UnknownReference)
      + RefFeedback(matches[n - 1].factRefs, facts)
  }

  function SourceFeedback(s: SuggestionSource, ids: set<string>, facts: set<string>): seq<Feedback> {
    When(s.requirementRef !in ids, UnknownReference) + RefFeedback(s.factRefs, facts)
  }

  function SuggestionFeedback(s: Suggestion, sources: seq<SuggestionSource>, ids: set<string>, facts: set<string>)
    : seq<Feedback>
  {
    var source := SourceOf(sources, s);
    When(s.requirementRef !in ids || source.None? || !Improvable(source.value.category), UnknownReference)
    + ClaimFeedback(s.claims, facts)
  }

  function SourceListFeedback(sources: seq<SuggestionSource>, ids: set<string>, facts: set<string>): seq<Feedback> {
    Gathered(sources, (s: SuggestionSource) => SourceFeedback(s, ids, facts))
  }

  function SuggestionListFeedback(suggestions: seq<Suggestion>, sources: seq<SuggestionSource>, ids: set<string>,
                                  facts: set<string>): seq<Feedback>
  {
    Gathered(suggestions, (s: Suggestion) => SuggestionFeedback(s, sources, ids, facts))
  }

  /** All failures that `referenceFeedback` finds. */
  function AllFeedback(input: Input, output: Output): seq<Feedback>
    requires Shaped(input, output)
  {
    match input
    case IntakeInput(answerId, length, facts) =>
      Gathered(output.candidates, (c: FactCandidate) => CandidateFeedback(c, answerId, length))
      + RefFeedback(output.related, facts)
    case ComposeInput(facts, types) =>
      Gathered(output.sections, (s: DraftSection) => SectionFeedback(s, types, facts))
    case ParseInput(length, categories) =>
      Gathered(output.requirements, (r: Requirement) => RequirementFeedback(r, categories, length))
    case MatchInput(ids, facts) =>
      MatchFeedback(ids, facts, output.matches, |output.matches|)
      + When(|Elems(Refs(output.matches))| != |ids|, CoverageInvalid)
    case SuggestInput(sources, facts, ids) =>
      SourceListFeedback(sources, ids, facts) + SuggestionListFeedback(output.suggestions, sources, ids, facts)
  }

  // ----- no failure means that everything is confirmed -----

  lemma NoRefFeedback(refs: seq<string>, allowed: set<string>)
    ensures RefFeedback(refs, allowed) == [] <==> AllIn(refs, allowed)
  {
    GatheredNone(refs, (ref: string) => When(ref !in allowed, UnknownReference));
  }

  lemma NoClaimFeedback(claims: seq<seq<string>>, facts: set<string>)
    ensures ClaimFeedback(claims, facts) == [] <==> forall c :: 0 <= c < |claims| ==> AllIn(claims[c], facts)
  {
    GatheredNone(claims, (refs: seq<string>) => RefFeedback(refs, facts));
    forall c | 0 <= c < |claims| ensures RefFeedback(claims[c], facts) == [] <==> AllIn(claims[c], facts) {
      NoRefFeedback(claims[c], facts);
    }
  }

  lemma NoDraftFeedback(bullets: seq<seq<seq<string>>>, facts: set<string>)
    ensures DraftFeedback(bullets, facts) == [] <==> DraftCites(bullets, facts)
  {
    hide AllIn, ClaimFeedback;
    GatheredNone(bullets, (claims: seq<seq<string>>) => ClaimFeedback(claims, facts));
    forall b | 0 <= b < |bullets|
      ensures ClaimFeedback(bullets[b], facts) == []
              <==> forall c :: 0 <= c < |bullets[b]| ==> AllIn(bullets[b][c], facts)
    {
      NoClaimFeedback(bullets[b], facts);
    }
  }

  lemma NoIntakeFeedback(input: Input, output: Output)
    requires input.IntakeInput? && Shaped(input, output)
    ensures AllFeedback(input, output) == [] <==> References(input, output)
  {
    hide AllIn, RefFeedback, ValidRange;
    GatheredNone(output.candidates, (c: FactCandidate) => CandidateFeedback(c, input.answerId, input.answerLength));
    NoRefFeedback(output.related, input.factIds);
  }

  lemma NoComposeFeedback(input: Input, output: Output)
    requires input.ComposeInput? && Shaped(input, output)
    ensures AllFeedback(input, output) == [] <==> References(input, output)
  {
    hide DraftCites, DraftFeedback;
    var facts, types := input.factIds, input.allowedTypes;
    GatheredNone(output.sections, (s: DraftSection) => SectionFeedback(s, types, facts));
    forall i | 0 <= i < |output.sections|
      ensures DraftFeedback(output.sections[i].bullets, facts) == [] <==> DraftCites(output.sections[i].bullets, facts)
    {
      NoDraftFeedback(output.sections[i].bullets, facts);
    }
  }

  lemma NoParseFeedback(input: Input, output: Output)
    requires input.ParseInput? && Shaped(input, output)
    ensures AllFeedback(input, output) == [] <==> References(input, output)
  {
    hide ValidRange;
    var length, categories := input.textLength, input.allowedCategories;
    GatheredNone(output.requirements, (r: Requirement) => RequirementFeedback(r, categories, length));
  }

  lemma NoSourceFeedback(sources: seq<SuggestionSource>, ids: set<string>, facts: set<string>)
    ensures SourceListFeedback(sources, ids, facts) == []
       <==> forall i :: 0 <= i < |sources| ==> sources[i].requirementRef in ids && AllIn(sources[i].factRefs, facts)
  {
    hide AllIn, RefFeedback;
    GatheredNone(sources, (s: SuggestionSource) => SourceFeedback(s, ids, facts));
    forall i | 0 <= i < |sources|
      ensures RefFeedback(sources[i].factRefs, facts) == [] <==> AllIn(sources[i].factRefs, facts)
    {
      NoRefFeedback(sources[i].factRefs, facts);
    }
  }

  lemma NoSuggestionFeedback(input: Input, s: Suggestion)
    requires input.SuggestInput?
    ensures SuggestionFeedback(s, input.sources, input.confirmedIds, input.factIds) == []
            <==> SuggestionConfirmed(input, s)
  {
    hide AllIn, ClaimFeedback, SourceOf;
    NoClaimFeedback(s.claims, input.factIds);
  }

  lemma NoSuggestFeedback(input: Input, output: Output)
    requires input.SuggestInput? && Shaped(input, output)
    ensures AllFeedback(input, output) == [] <==> References(input, output)
  {
    hide SourceListFeedback, SuggestionFeedback, SuggestionConfirmed, AllIn;
    var sources, facts, ids := input.sources, input.factIds, input.confirmedIds;
    NoSourceFeedback(sources, ids, facts);
    GatheredNone(output.suggestions, (s: Suggestion) => SuggestionFeedback(s, sources, ids, facts));
    forall i | 0 <= i < |output.suggestions|
      ensures SuggestionFeedback(output.suggestions[i], sources, ids, facts) == []
         <==> SuggestionConfirmed(input, output.suggestions[i])
    {
      NoSuggestionFeedback(input, output.suggestions[i]);
    }
  }

  lemma {:induction false} DistinctMultiset(s: seq<string>, k: string)
    requires NoDup(s)
    ensures multiset(s)[k] == if k in s then 1 else 0
  {
    if s != [] {
      var last := |s| - 1;
      DistinctMultiset(s[..last], k);
      assert s == s[..last] + [s[last]];
      assert s[last] !in s[..last];
    }
  }

  /**
   * Pigeonhole: the three cheap tests of the match loop, no repeated reference, only known references and as
   * many as there are requirements, together say that the references are the requirements, each once.
   */
  lemma PermutationOfRequirements(refs: seq<string>, ids: seq<string>)
    ensures NoDup(refs) && Elems(refs) <= Elems(ids) && |Elems(refs)| == |ids|
       <==> multiset(refs) == multiset(ids) && NoDup(ids)
  {
    SizeOfDistinct(refs);
    SizeOfDistinct(ids);
    if NoDup(refs) && Elems(refs) <= Elems(ids) && |Elems(refs)| == |ids| {
      SizeOfSubset(Elems(refs), Elems(ids));
      SubsetOfEqualSize(Elems(refs), Elems(ids));
      forall k ensures multiset(refs)[k] == multiset(ids)[k] {
        DistinctMultiset(refs, k);
        DistinctMultiset(ids, k);
        assert k in refs <==> k in Elems(refs);
        assert k in ids <==> k in Elems(ids);
      }
    }
    if multiset(refs) == multiset(ids) && NoDup(ids) {
      assert |multiset(refs)| == |multiset(ids)|;
      forall k ensures k in refs <==> k in ids {
        assert k in multiset(refs) <==> k in multiset(ids);
      }
      assert Elems(refs) == Elems(ids);
    }
  }

  lemma {:induction false} NoMatchFeedbackUpTo(ids: seq<string>, facts: set<string>, matches: seq<Match>, n: nat)
    requires n <= |matches|
    ensures MatchFeedback(ids, facts, matches, n) == []
       <==> && NoDup(Refs(matches)[..n]) && Elems(Refs(matches)[..n]) <= Elems(ids)
            && forall k :: 0 <= k < n ==> AllIn(matches[k].factRefs, facts)
  {
    hide AllIn, RefFeedback;
    if n != 0 {
      var refs, ref := Refs(matches), matches[n - 1].requirementRef;
      NoMatchFeedbackUpTo(ids, facts, matches, n - 1);
      NoRefFeedback(matches[n - 1].factRefs, facts);
      hide NoDup, Elems;
      OneMoreDistinct(refs, n, ids);
    }
  }

  lemma OneMoreDistinct(refs: seq<string>, n: nat, ids: seq<string>)
    requires 0 < n <= |refs|
    ensures NoDup(refs[..n]) <==> NoDup(refs[..n - 1]) && refs[n - 1] !in refs[..n - 1]
    ensures Elems(refs[..n]) <= Elems(ids) <==> Elems(refs[..n - 1]) <= Elems(ids) && refs[n - 1] in ids
  {
    var ref := refs[n - 1];
    assert refs[..n] == refs[..n - 1] + [ref];
    assert Elems(refs[..n]) == Elems(refs[..n - 1]) + {ref};
  }

  lemma NoMatchFeedback(input: Input, output: Output)
    requires input.MatchInput? && Shaped(input, output)
    ensures AllFeedback(input, output) == [] <==> References(input, output)
  {
    var refs := Refs(output.matches);
    NoMatchFeedbackUpTo(input.requirementIds, input.factIds, output.matches, |output.matches|);
    assert refs[..|output.matches|] == refs;
    PermutationOfRequirements(refs, input.requirementIds);
  }

  /** Nothing is reported exactly when the output refers only to what its input confirms. */
  lemma NoFeedbackExactly(input: Input, output: Output)
    requires Shaped(input, output)
    ensures AllFeedback(input, output) == [] <==> References(input, output)
  {
    hide References, AllFeedback;
    match input
    case IntakeInput(_, _, _) => NoIntakeFeedback(input, output);
    case ComposeInput(_, _) => NoComposeFeedback(input, output);
    case ParseInput(_, _) => NoParseFeedback(input, output);
    case MatchInput(_, _) => NoMatchFeedback(input, output);
    case SuggestInput(_, _, _) => NoSuggestFeedback(input, output);
  }

  // ----- which failure comes first, and how many there are -----

  /** The first item that fails decides the first failure. */
  lemma {:induction false} GatheredFirst<T(!new)>(items: seq<T>, feedback: T -> seq<Feedback>, i: nat)
    requires i < |items| && feedback(items[i]) != [] && forall k :: 0 <= k < i ==> feedback(items[k]) == []
    ensures Gathered(items, feedback) != [] && Gathered(items, feedback)[0] == feedback(items[i])[0]
  {
    var last := |items| - 1;
    GatheredNone(items[..i], feedback);
    if i == last {
      assert items[..last] == items[..i];
    } else {
      GatheredFirst(items[..last], feedback, i);
    }
  }

  lemma {:induction false} GatheredOnly<T(!new)>(items: seq<T>, feedback: T -> seq<Feedback>, failure: Feedback)
    requires forall i, f :: 0 <= i < |items| && f in feedback(items[i]) ==> f == failure
    ensures forall f :: f in Gathered(items, feedback) ==> f == failure
  {
    if items != [] {
      GatheredOnly(items[..|items| - 1], feedback, failure);
    }
  }

  /** Each reference that is not allowed is reported once, and as unknown. */
  lemma {:induction false} RefFeedbackCounts(refs: seq<string>, allowed: set<string>)
    ensures |RefFeedback(refs, allowed)| == |set i | 0 <= i < |refs| && refs[i] !in allowed|
    ensures forall f :: f in RefFeedback(refs, allowed) ==> f == UnknownReference
  {
    var wrong := set i | 0 <= i < |refs| && refs[i] !in allowed;
    if refs == [] {
      assert wrong == {};
    } else {
      var last := |refs| - 1;
      var before := set i | 0 <= i < last && refs[..last][i] !in allowed;
      RefFeedbackCounts(refs[..last], allowed);
      assert wrong == if refs[last] in allowed then before else before + {last};
    }
  }

  lemma ClaimFeedbackUnknown(claims: seq<seq<string>>, facts: set<string>)
    ensures forall f :: f in ClaimFeedback(claims, facts) ==> f == UnknownReference
  {
    hide RefFeedback;
    forall i, f | 0 <= i < |claims| && f in RefFeedback(claims[i], facts) ensures f == UnknownReference {
      RefFeedbackCounts(claims[i], facts);
    }
    GatheredOnly(claims, (refs: seq<string>) => RefFeedback(refs, facts), UnknownReference);
  }

  lemma DraftFeedbackUnknown(bullets: seq<seq<seq<string>>>, facts: set<string>)
    ensures forall f :: f in DraftFeedback(bullets, facts) ==> f == UnknownReference
  {
    hide ClaimFeedback;
    forall i, f | 0 <= i < |bullets| && f in ClaimFeedback(bullets[i], facts) ensures f == UnknownReference {
      ClaimFeedbackUnknown(bullets[i], facts);
    }
    GatheredOnly(bullets, (claims: seq<seq<string>>) => ClaimFeedback(claims, facts), UnknownReference);
  }

  predicate CandidateFits(c: FactCandidate, answerId: string, length: nat) {
    c.sourceAnswerId == answerId && 0 <= c.sourceRange.start < c.sourceRange.end <= length
  }

  predicate RequirementFits(r: Requirement, categories: set<string>, length: nat) {
    r.category in categories && 0 <= r.sourceRange.start < r.sourceRange.end <= length
  }

  /**
   * The failure that decides a rejected run's error: of the first wrong candidate, section or requirement, its
   * reference or type before its range; in the other workflows an unknown reference before the coverage.
   */
  ghost predicate FirstFailure(input: Input, output: Output, first: Feedback)
    requires Shaped(input, output)
  {
    match input
    case IntakeInput(answerId, length, _) =>
      var candidates := output.candidates;
      && (forall i :: 0 <= i < |candidates| && !CandidateFits(candidates[i], answerId, length)
                      && (forall k :: 0 <= k < i ==> CandidateFits(candidates[k], answerId, length))
                      ==> first == if candidates[i].sourceAnswerId != answerId then UnknownReference else RangeInvalid)
      && ((forall i :: 0 <= i < |candidates| ==> CandidateFits(candidates[i], answerId, length))
          ==> first == UnknownReference)
    case ComposeInput(facts, types) =>
      var sections := output.sections;
      forall i :: 0 <= i < |sections| && !(sections[i].kind in types && DraftCites(sections[i].bullets, facts))
                  && (forall k :: 0 <= k < i ==> sections[k].kind in types && DraftCites(sections[k].bullets, facts))
                  ==> first == if sections[i].kind !in types then NotAllowed else UnknownReference
    case ParseInput(length, categories) =>
      var requirements := output.requirements;
      forall i :: 0 <= i < |requirements| && !RequirementFits(requirements[i], categories, length)
                  && (forall k :: 0 <= k < i ==> RequirementFits(requirements[k], categories, length))
                  ==> first == if requirements[i].category !in categories then NotAllowed else RangeInvalid
    case MatchInput(ids, facts) =>
      var matches := output.matches;
      first == if NoDup(Refs(matches)) && (forall i :: 0 <= i < |matches| ==> matches[i].requirementRef in ids)
                  && (forall i :: 0 <= i < |matches| ==> AllIn(matches[i].factRefs, facts))
               then CoverageInvalid else UnknownReference
    case SuggestInput(_, _, _) => first == UnknownReference
  }

  lemma CandidateFeedbackFirst(c: FactCandidate, answerId: string, length: nat)
    ensures CandidateFeedback(c, answerId, length) == [] <==> CandidateFits(c, answerId, length)
    ensures !CandidateFits(c, answerId, length) ==>
              CandidateFeedback(c, answerId, length)[0]
              == if c.sourceAnswerId != answerId then UnknownReference else RangeInvalid
  {
  }

  lemma FirstIntakeFailure(input: Input, output: Output)
    requires input.IntakeInput? && Shaped(input, output) && AllFeedback(input, output) != []
    ensures FirstFailure(input, output, AllFeedback(input, output)[0])
  {
    hide RefFeedback, CandidateFeedback, CandidateFits, Gathered;
    var answerId, length, candidates := input.answerId, input.answerLength, output.candidates;
    var feedback := (c: FactCandidate) => CandidateFeedback(c, answerId, length);
    forall i | 0 <= i < |candidates|
      ensures feedback(candidates[i]) == [] <==> CandidateFits(candidates[i], answerId, length)
    {
      CandidateFeedbackFirst(candidates[i], answerId, length);
    }
    GatheredNone(candidates, feedback);
    RefFeedbackCounts(output.related, input.factIds);
    forall i | 0 <= i < |candidates| && !CandidateFits(candidates[i], answerId, length)
               && (forall k :: 0 <= k < i ==> CandidateFits(candidates[k], answerId, length))
      ensures AllFeedback(input, output)[0]
              == if candidates[i].sourceAnswerId != answerId then UnknownReference else RangeInvalid
    {
      GatheredFirst(candidates, feedback, i);
      CandidateFeedbackFirst(candidates[i], answerId, length);
    }
    if Gathered(candidates, feedback) == [] {
      assert AllFeedback(input, output) == RefFeedback(output.related, input.factIds);
      assert AllFeedback(input, output)[0] in RefFeedback(output.related, input.factIds);
    }
  }

  lemma FirstComposeFailure(input: Input, output: Output)
    requires input.ComposeInput? && Shaped(input, output) && AllFeedback(input, output) != []
    ensures FirstFailure(input, output, AllFeedback(input, output)[0])
  {
    hide DraftFeedback, DraftCites;
    var facts, types, sections := input.factIds, input.allowedTypes, output.sections;
    var feedback := (s: DraftSection) => SectionFeedback(s, types, facts);
    forall i | 0 <= i < |sections|
      ensures DraftFeedback(sections[i].bullets, facts) == [] <==> DraftCites(sections[i].bullets, facts)
      ensures forall f :: f in DraftFeedback(sections[i].bullets, facts) ==> f == UnknownReference
    {
      NoDraftFeedback(sections[i].bullets, facts);
      DraftFeedbackUnknown(sections[i].bullets, facts);
    }
    forall i | 0 <= i < |sections| && !(sections[i].kind in types && DraftCites(sections[i].bullets, facts))
               && (forall k :: 0 <= k < i ==> sections[k].kind in types && DraftCites(sections[k].bullets, facts))
      ensures AllFeedback(input, output)[0] == if sections[i].kind !in types then NotAllowed else UnknownReference
    {
      GatheredFirst(sections, feedback, i);
      if sections[i].kind in types {
        assert feedback(sections[i]) == DraftFeedback(sections[i].bullets, facts);
        assert feedback(sections[i])[0] in DraftFeedback(sections[i].bullets, facts);
      }
    }
  }

  lemma FirstParseFailure(input: Input, output: Output)
    requires input.ParseInput? && Shaped(input, output) && AllFeedback(input, output) != []
    ensures FirstFailure(input, output, AllFeedback(input, output)[0])
  {
    var length, categories, requirements := input.textLength, input.allowedCategories, output.requirements;
    var feedback := (r: Requirement) => RequirementFeedback(r, categories, length);
    forall i | 0 <= i < |requirements| && !RequirementFits(requirements[i], categories, length)
               && (forall k :: 0 <= k < i ==> RequirementFits(requirements[k], categories, length))
      ensures AllFeedback(input, output)[0]
              == if requirements[i].category !in categories then NotAllowed else RangeInvalid
    {
      GatheredFirst(requirements, feedback, i);
    }
  }

  lemma {:induction false} MatchFeedbackUnknown(ids: seq<string>, facts: set<string>, matches: seq<Match>, n: nat)
    requires n <= |matches|
    ensures forall f :: f in MatchFeedback(ids, facts, matches, n) ==> f == UnknownReference
  {
    hide RefFeedback;
    if n != 0 {
      MatchFeedbackUnknown(ids, facts, matches, n - 1);
      RefFeedbackCounts(matches[n - 1].factRefs, facts);
    }
  }

  lemma FirstMatchFailure(input: Input, output: Output)
    requires input.MatchInput? && Shaped(input, output) && AllFeedback(input, output) != []
    ensures FirstFailure(input, output, AllFeedback(input, output)[0])
  {
    hide MatchFeedback, AllIn;
    var ids, facts, matches := input.requirementIds, input.factIds, output.matches;
    MatchFeedbackUnknown(ids, facts, matches, |matches|);
    NoMatchFeedbackUpTo(ids, facts, matches, |matches|);
    assert Refs(matches)[..|matches|] == Refs(matches);
    assert Elems(Refs(matches)) <= Elems(ids)
      <==> forall i :: 0 <= i < |matches| ==> matches[i].requirementRef in ids by {
      assert forall r :: r in Elems(Refs(matches)) <==> r in Refs(matches);
      assert forall r :: r in Elems(ids) <==> r in ids;
      forall i | 0 <= i < |matches| ensures matches[i].requirementRef in Refs(matches) {
        assert Refs(matches)[i] == matches[i].requirementRef;
      }
    }
    var found := MatchFeedback(ids, facts, matches, |matches|);
    if found != [] {
      assert AllFeedback(input, output)[0] == found[0] && found[0] in found;
    }
  }

  lemma FirstSuggestFailure(input: Input, output: Output)
    requires input.SuggestInput? && Shaped(input, output) && AllFeedback(input, output) != []
    ensures AllFeedback(input, output)[0] == UnknownReference
  {
    hide SourceOf, ClaimFeedback, RefFeedback, Gathered;
    var sources, facts, ids := input.sources, input.factIds, input.confirmedIds;
    forall i, f | 0 <= i < |sources| && f in SourceFeedback(sources[i], ids, facts) ensures f == UnknownReference {
      RefFeedbackCounts(sources[i].factRefs, facts);
    }
    GatheredOnly(sources, (s: SuggestionSource) => SourceFeedback(s, ids, facts), UnknownReference);
    forall i, f | 0 <= i < |output.suggestions| && f in SuggestionFeedback(output.suggestions[i], sources, ids, facts)
      ensures f == UnknownReference
    {
      ClaimFeedbackUnknown(output.suggestions[i].claims, facts);
    }
    GatheredOnly(output.suggestions, (s: Suggestion) => SuggestionFeedback(s, sources, ids, facts), UnknownReference);
    var a := SourceListFeedback(sources, ids, facts);
    var b := SuggestionListFeedback(output.suggestions, sources, ids, facts);
    assert AllFeedback(input, output) == a + b;
    assert (a + b)[0] in a || (a + b)[0] in b;
  }

  /** Which failure is reported first, for every workflow. */
  lemma FirstFailureIs(input: Input, output: Output)
    requires Shaped(input, output) && AllFeedback(input, output) != []
    ensures FirstFailure(input, output, AllFeedback(input, output)[0])
  {
    hide AllFeedback;
    match input
    case IntakeInput(_, _, _) => FirstIntakeFailure(input, output);
    case ComposeInput(_, _) => FirstComposeFailure(input, output);
    case ParseInput(_, _) => FirstParseFailure(input, output);
    case MatchInput(_, _) => FirstMatchFailure(input, output);
    case SuggestInput(_, _, _) => FirstSuggestFailure(input, output);
  }

  // ----- the loops -----

  /** `checkRefs` */
  method CheckRefs(refs: seq<string>, allowed: set<string>, failures: seq<Feedback>) returns (r: seq<Feedback>)
    ensures r == failures + RefFeedback(refs, allowed)
  {
    r := failures;
    ghost var feedback := (ref: string) => When(ref !in allowed, UnknownReference);
    for i := 0 to |refs|
      invariant r == failures + Gathered(refs[..i], feedback)
    {
      GatherOne(refs, i, feedback);
      if refs[i] !in allowed {
        r := r + [UnknownReference];
      }
    }
    assert refs[..|refs|] == refs;
  }

  method ClaimFailures(claims: seq<seq<string>>, facts: set<string>, failures: seq<Feedback>) returns (r: seq<Feedback>)
    ensures r == failures + ClaimFeedback(claims, facts)
  {
    hide RefFeedback;
    r := failures;
    ghost var feedback := (refs: seq<string>) => RefFeedback(refs, facts);
    for c := 0 to |claims|
      invariant r == failures + Gathered(claims[..c], feedback)
    {
      GatherOne(claims, c, feedback);
      r := CheckRefs(claims[c], facts, r);
    }
    assert claims[..|claims|] == claims;
  }

  method DraftFailures(bullets: seq<seq<seq<string>>>, facts: set<string>, failures: seq<Feedback>)
    returns (r: seq<Feedback>)
    ensures r == failures + DraftFeedback(bullets, facts)
  {
    hide ClaimFeedback;
    r := failures;
    ghost var feedback := (claims: seq<seq<string>>) => ClaimFeedback(claims, facts);
    for b := 0 to |bullets|
      invariant r == failures + Gathered(bullets[..b], feedback)
    {
      GatherOne(bullets, b, feedback);
      r := ClaimFailures(bullets[b], facts, r);
    }
    assert bullets[..|bullets|] == bullets;
  }

  method IntakeFailures(input: Input, output: Output) returns (failures: seq<Feedback>)
    requires input.IntakeInput? && Shaped(input, output)
    ensures failures == AllFeedback(input, output)
  {
    hide RefFeedback;
    failures := [];
    ghost var feedback := (c: FactCandidate) => CandidateFeedback(c, input.answerId, input.answerLength);
    for i := 0 to |output.candidates|
      invariant failures == Gathered(output.candidates[..i], feedback)
    {
      GatherOne(output.candidates, i, feedback);
      if output.candidates[i].sourceAnswerId != input.answerId {
        failures := failures + [UnknownReference];
      }
      if !ValidRange(output.candidates[i].sourceRange, input.answerLength) {
        failures := failures + [RangeInvalid];
      }
    }
    assert output.candidates[..|output.candidates|] == output.candidates;
    failures := CheckRefs(output.related, input.factIds, failures);
  }

  method ComposeFailures(input: Input, output: Output) returns (failures: seq<Feedback>)
    requires input.ComposeInput? && Shaped(input, output)
    ensures failures == AllFeedback(input, output)
  {
    hide DraftFeedback;
    failures := [];
    ghost var facts, types := input.factIds, input.allowedTypes;
    ghost var feedback := (s: DraftSection) => SectionFeedback(s, types, facts);
    for i := 0 to |output.sections|
      invariant failures == Gathered(output.sections[..i], feedback)
    {
      GatherOne(output.sections, i, feedback);
      if output.sections[i].kind !in input.allowedTypes {
        failures := failures + [NotAllowed];
      }
      failures := DraftFailures(output.sections[i].bullets, input.factIds, failures);
    }
    assert output.sections[..|output.sections|] == output.sections;
  }

  method ParseFailures(input: Input, output: Output) returns (failures: seq<Feedback>)
    requires input.ParseInput? && Shaped(input, output)
    ensures failures == AllFeedback(input, output)
  {
    failures := [];
    ghost var length, categories := input.textLength, input.allowedCategories;
    ghost var feedback := (r: Requirement) => RequirementFeedback(r, categories, length);
    for i := 0 to |output.requirements|
      invariant failures == Gathered(output.requirements[..i], feedback)
    {
      GatherOne(output.requirements, i, feedback);
      if output.requirements[i].category !in input.allowedCategories {
        failures := failures + [NotAllowed];
      }
      if !ValidRange(output.requirements[i].sourceRange, input.textLength) {
        failures := failures + [RangeInvalid];
      }
    }
    assert output.requirements[..|output.requirements|] == output.requirements;
  }

  lemma ElemsOneMore(refs: seq<string>, i: nat)
    requires i < |refs|
    ensures Elems(refs[..i + 1]) == Elems(refs[..i]) + {refs[i]}
    ensures refs[i] in Elems(refs[..i]) <==> refs[i] in refs[..i]
  {
    assert refs[..i + 1] == refs[..i] + [refs[i]];
  }

  lemma NothingSeen()
    ensures Elems<string>([]) == {}
  {
  }

  method MatchFailures(input: Input, output: Output) returns (failures: seq<Feedback>)
    requires input.MatchInput? && Shaped(input, output)
    ensures failures == AllFeedback(input, output)
  {
    hide RefFeedback, Elems;
    assert Elems<string>([]) == {} by { NothingSeen(); }
    var ids, matches := input.requirementIds, output.matches;
    ghost var refs := Refs(matches);
    var seen: set<string> := {};
    failures := [];
    for i := 0 to |matches|
      invariant seen == Elems(refs[..i])
      invariant failures == MatchFeedback(ids, input.factIds, matches, i)
    {
      var ref := matches[i].requirementRef;
      ElemsOneMore(refs, i);
      if ref !in ids || ref in seen {
        failures := failures + [UnknownReference];
      }
      seen := seen + {ref};
      failures := CheckRefs(matches[i].factRefs, input.factIds, failures);
    }
    assert refs[..|matches|] == refs;
    if |seen| != |ids| {
      failures := failures + [CoverageInvalid];
    }
  }

  method SuggestFailures(input: Input, output: Output) returns (failures: seq<Feedback>)
    requires input.SuggestInput? && Shaped(input, output)
    ensures failures == AllFeedback(input, output)
  {
    hide SourceListFeedback, SuggestionListFeedback;
    failures := SourceFailures(input.sources, input.confirmedIds, input.factIds);
    failures := SuggestionFailures(input.sources, output.suggestions, input.confirmedIds, input.factIds, failures);
  }

  method SourceFailures(sources: seq<SuggestionSource>, ids: set<string>, facts: set<string>)
    returns (failures: seq<Feedback>)
    ensures failures == SourceListFeedback(sources, ids, facts)
  {
    hide RefFeedback;
    failures := [];
    ghost var feedback := (s: SuggestionSource) => SourceFeedback(s, ids, facts);
    for i := 0 to |sources|
      invariant failures == Gathered(sources[..i], feedback)
    {
      GatherOne(sources, i, feedback);
      if sources[i].requirementRef !in ids {
        failures := failures + [UnknownReference];
      }
      failures := CheckRefs(sources[i].factRefs, facts, failures);
    }
    assert sources[..|sources|] == sources;
  }

  method SuggestionFailures(sources: seq<SuggestionSource>, suggestions: seq<Suggestion>, ids: set<string>,
                            facts: set<string>, failures: seq<Feedback>)
    returns (r: seq<Feedback>)
    ensures r == failures + SuggestionListFeedback(suggestions, sources, ids, facts)
  {
    hide ClaimFeedback, SourceOf;
    r := failures;
    ghost var feedback := (s: Suggestion) => SuggestionFeedback(s, sources, ids, facts);
    for i := 0 to |suggestions|
      invariant r == failures + Gathered(suggestions[..i], feedback)
    {
      GatherOne(suggestions, i, feedback);
      var source := SourceOf(sources, suggestions[i]);
      if suggestions[i].requirementRef !in ids || source.None? || !Improvable(source.value.category) {
        r := r + [UnknownReference];
      }
      r := ClaimFailures(suggestions[i].claims, facts, r);
    }
    assert suggestions[..|suggestions|] == suggestions;
  }

  function Truncated(failures: seq<Feedback>): seq<Feedback> {
    if |failures| <= MAX_FEEDBACK then failures else failures[..MAX_FEEDBACK]
  }

  /** What `validateRuntimeOutput` reports; the shape check names every failure alike. */
  function FeedbackOf(input: Input, output: Output): (r: seq<Feedback>)
    ensures |r| <= MAX_FEEDBACK
  {
    if Shaped(input, output) then Truncated(AllFeedback(input, output))
    else Truncated(seq(if output.Malformed? && output.errors > 0 then output.errors else 1, _ => SchemaFeedback))
  }

  method ReferenceFeedback(input: Input, output: Output) returns (failures: seq<Feedback>)
    requires Shaped(input, output)
    ensures failures == Truncated(AllFeedback(input, output)) && failures <= AllFeedback(input, output)
    ensures |failures| < 20 ==> failures == AllFeedback(input, output)
    ensures failures == [] <==> References(input, output)
    ensures failures != [] ==> |failures| <= 20 && FirstFailure(input, output, failures[0])
  {
    hide AllFeedback, References, FirstFailure;
    match input {
      case IntakeInput(_, _, _) => failures := IntakeFailures(input, output);
      case ComposeInput(_, _) => failures := ComposeFailures(input, output);
      case ParseInput(_, _) => failures := ParseFailures(input, output);
      case MatchInput(_, _) => failures := MatchFailures(input, output);
      case SuggestInput(_, _, _) => failures := SuggestFailures(input, output);
    }
    NoFeedbackExactly(input, output);
    if failures != [] {
      FirstFailureIs(input, output);
    }
    failures := Truncated(failures);
  }

  /** The entry that counts for a suggestion, the last of its key, is one whose category asks for an improvement. */
  ghost predicate AsksForImprovement(sources: seq<SuggestionSource>, s: Suggestion, i: nat)
    requires i < |sources|
  {
    && IsKeyOf(sources[i], s) && (sources[i].category == Transferable || sources[i].category == NeedsEvidence)
    && forall j :: i < j < |sources| ==> !IsKeyOf(sources[j], s)
  }

  predicate IsKeyOf(source: SuggestionSource, s: Suggestion) {
    && source.requirementRef == s.requirementRef && source.targetPath == s.targetPath
    && source.originalHash == s.originalHash
  }

  /** A suggestion answers to a confirmed requirement that asks for one, and claims confirmed facts only. */
  ghost predicate SuggestionFits(s: Suggestion, sources: seq<SuggestionSource>, facts: set<string>, ids: set<string>) {
    && s.requirementRef in ids
    && (exists i :: 0 <= i < |sources| && AsksForImprovement(sources, s, i))
    && forall c, r | 0 <= c < |s.claims| && r in s.claims[c] :: r in facts
  }

  /** An output that is accepted has the shape of its workflow and refers only to what its input confirms. */
  ghost predicate Acceptable(input: Input, output: Output) {
    match (input, output)
    case (IntakeInput(answerId, length, facts), IntakeOutput(candidates, related)) =>
      && (forall i :: 0 <= i < |candidates| ==>
            && candidates[i].sourceAnswerId == answerId
            && 0 <= candidates[i].sourceRange.start < candidates[i].sourceRange.end <= length)
      && forall r :: r in related ==> r in facts
    case (ComposeInput(facts, types), ComposeOutput(sections)) =>
      && (forall i :: 0 <= i < |sections| ==> sections[i].kind in types)
      && forall i, b, c, r | 0 <= i < |sections| && 0 <= b < |sections[i].bullets| && 0 <= c < |sections[i].bullets[b]|
                             && r in sections[i].bullets[b][c] :: r in facts
    case (ParseInput(length, categories), ParseOutput(requirements)) =>
      forall i :: 0 <= i < |requirements| ==>
                    && requirements[i].category in categories
                    && 0 <= requirements[i].sourceRange.start < requirements[i].sourceRange.end <= length
    case (MatchInput(ids, facts), MatchOutput(matches)) =>
      && multiset(Refs(matches)) == multiset(ids) && NoDup(ids)
      && forall i, r :: 0 <= i < |matches| && r in matches[i].factRefs ==> r in facts
    case (SuggestInput(sources, facts, ids), SuggestOutput(suggestions)) =>
      && (forall i :: 0 <= i < |sources| ==> sources[i].requirementRef in ids)
      && (forall i, r :: 0 <= i < |sources| && r in sources[i].factRefs ==> r in facts)
      && forall k :: 0 <= k < |suggestions| ==> SuggestionFits(suggestions[k], sources, facts, ids)
    case _ => false
  }

  /** Among the entries without the last, the same one asks, if the last has another key. */
  lemma AsksBeforeLast(sources: seq<SuggestionSource>, s: Suggestion, i: nat)
    requires i < |sources| - 1 && !IsKeyOf(sources[|sources| - 1], s)
    ensures AsksForImprovement(sources[..|sources| - 1], s, i) <==> AsksForImprovement(sources, s, i)
  {
    hide IsKeyOf;
    var before := sources[..|sources| - 1];
    assert before[i] == sources[i];
    assert forall j :: i < j < |before| ==> before[j] == sources[j];
  }

  lemma {:induction false} SourceIsLast(sources: seq<SuggestionSource>, s: Suggestion)
    ensures SourceOf(sources, s).Some? && Improvable(SourceOf(sources, s).value.category)
       <==> exists i :: 0 <= i < |sources| && AsksForImprovement(sources, s, i)
  {
    if sources != [] {
      var last := |sources| - 1;
      if IsKeyOf(sources[last], s) {
        assert AsksForImprovement(sources, s, last) <==> Improvable(sources[last].category);
        assert forall i :: 0 <= i < last ==> !AsksForImprovement(sources, s, i);
      } else {
        var before := sources[..last];
        SourceIsLast(before, s);
        assert SourceOf(sources, s) == SourceOf(before, s) && !AsksForImprovement(sources, s, last);
        hide SourceOf, AsksForImprovement, IsKeyOf;
        if i :| 0 <= i < last && AsksForImprovement(before, s, i) {
          AsksBeforeLast(sources, s, i);
        }
        if i :| 0 <= i < |sources| && AsksForImprovement(sources, s, i) {
          assert i != last;
          AsksBeforeLast(sources, s, i);
        }
      }
    }
  }

  lemma SuggestionFitsExactly(input: Input, s: Suggestion)
    requires input.SuggestInput?
    ensures SuggestionFits(s, input.sources, input.factIds, input.confirmedIds) <==> SuggestionConfirmed(input, s)
  {
    hide SourceOf, AsksForImprovement, Improvable;
    SourceIsLast(input.sources, s);
  }

  lemma AcceptableExactly(input: Input, output: Output)
    ensures Acceptable(input, output) <==> Shaped(input, output) && References(input, output)
  {
    hide SuggestionFits, SuggestionConfirmed;
    if Shaped(input, output) && input.SuggestInput? {
      forall k | 0 <= k < |output.suggestions|
        ensures SuggestionFits(output.suggestions[k], input.sources, input.factIds, input.confirmedIds)
           <==> SuggestionConfirmed(input, output.suggestions[k])
      {
        SuggestionFitsExactly(input, output.suggestions[k]);
      }
    }
  }

  method ValidateRuntimeOutput(input: Input, output: Output) returns (failures: seq<Feedback>)
    ensures failures == FeedbackOf(input, output)
    ensures failures == [] <==> Acceptable(input, output)
    ensures failures != [] ==>
              |failures| <= 20 && if Shaped(input, output) then FirstFailure(input, output, failures[0])
                                  else forall k :: 0 <= k < |failures| ==> failures[k] == SchemaFeedback
  {
    hide AllFeedback, References, Acceptable, FirstFailure;
    AcceptableExactly(input, output);
    if !Shaped(input, output) {
      var errors := if output.Malformed? && output.errors > 0 then output.errors else 1;
      failures := Truncated(seq(errors, _ => SchemaFeedback));
    } else {
      failures := ReferenceFeedback(input, output);
    }
  }
}

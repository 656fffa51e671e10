/** A run of `summarize` (src/llm/ollama.ts:414-471) whose summary says that it is incomplete
    and no longer that its text was cut. */
module NoticeLost {

  import opened Text
  import opened SummarySchema
  import opened SummaryMerge
  import opened SummaryAggregate
  import opened SummaryProvenance
  import opened SummaryStorage
  import opened SummaryCompletion
  import opened SummaryNotices
  import opened SummaryAnswer

  // --------------------------------------------------------------------- the answers

  function AnswerWith(text: Utf16, uncertainties: seq<Utf16>): StructuredSummary {
    StructuredSummary(text, map f | f in LIST_FIELDS :: if f == Uncertainties then uncertainties else [], [], [])
  }

  /** Nineteen uncertainties of one letter each. */
  const LETTERS: seq<Utf16> := seq(MAX_ITEMS - 1, i requires 0 <= i < MAX_ITEMS - 1 => [(0x61 + i) as CodeUnit])

  const LONG: Utf16 := seq(MAX_SUMMARY, _ => 0x61)

  const FIRST := AnswerWith(LONG, LETTERS)
  const SECOND := AnswerWith([0x61], [])

  /** Both answers are read whole: the model gave them, and nothing of them was cut. */
  lemma BothAreAnswers(segmenter: Utf16 -> seq<Utf16>)
    ensures WithinBounds(FIRST) && ReadAnswer(Stored(FIRST).fields, segmenter) == FIRST
    ensures WithinBounds(SECOND) && ReadAnswer(Stored(SECOND).fields, segmenter) == SECOND
  {
    LettersSettled();
    AnswerSettled(LONG, LETTERS);
    AnswerSettled([0x61], []);
    SettledIsAnswered(FIRST, segmenter);
    SettledIsAnswered(SECOND, segmenter);
  }

  lemma AnswerSettled(text: Utf16, items: seq<Utf16>)
    requires 0 < |text| <= MAX_SUMMARY && !IsSpace(text[0]) && !IsSpace(text[|text| - 1])
    requires Readable(items) && ShortItems(items) && ItemsSettled(items)
    ensures WithinBounds(AnswerWith(text, items)) && AllSettled(AnswerWith(text, items))
  {
    TrimVisible(text);
  }

  lemma LettersSettled()
    ensures Readable(LETTERS) && ShortItems(LETTERS) && ItemsSettled(LETTERS)
  {
    forall i | 0 <= i < |LETTERS| ensures Trim(LETTERS[i]) == LETTERS[i] { TrimVisible(LETTERS[i]); }
  }

  // ------------------------------------------------------------------------- the run

  /** A plan of three chunks, the last answered with malformed JSON. */
  const CALLS := [Call(0, Answered(FIRST), 1), Call(1, Answered(SECOND), 2), Call(2, MalformedJson, 3)]
  const PLAN: seq<seq<nat>> := [[], [], []]
  const RESULTS := [ChunkSummary([], FIRST), ChunkSummary([], SECOND)]

  lemma RunAnswers()
    ensures StoppedAt(CALLS, 4, 3) && Answers(PLAN, CALLS, 3) == RESULTS && CountOf(CALLS, 3, MalformedJson) == 1
  {
    assert Answers(PLAN, CALLS, 1) == [ChunkSummary([], FIRST)];
    assert Answers(PLAN, CALLS, 2) == RESULTS;
    assert CountOf(CALLS, 1, MalformedJson) == 0;
    assert CountOf(CALLS, 2, MalformedJson) == 0;
  }

  lemma PartsOfRun()
    ensures SummaryParts(RESULTS) == [LONG, [0x61]] && |Joined(SummaryParts(RESULTS))| == MAX_SUMMARY + 3
  {
    TrimVisible(LONG);
    TrimVisible([0x61]);
    assert RESULTS[..1] == [ChunkSummary([], FIRST)] && RESULTS[..1][..0] == [];
    assert SummaryParts(RESULTS[..1]) == [LONG];
    JoinedOfTwo(LONG, [0x61]);
  }

  lemma JoinedOfTwo(a: Utf16, b: Utf16)
    ensures |Joined([a, b])| == |a| + 2 + |b|
  {
    assert [a, b][..1] == [a];
  }

  lemma {:induction false} DifferentAreKept(norm: Utf16 -> Utf16, items: seq<Utf16>)
    requires AllDifferent(norm, items)
    ensures FirstOccurrences(norm, items) == items
  {
    if items != [] {
      DifferentAreKept(norm, items[..|items| - 1]);
      assert items == items[..|items| - 1] + [items[|items| - 1]];
    }
  }

  lemma ItemsOfTwo(a: ChunkSummary, b: ChunkSummary, f: ClaimField)
    requires AllHaveLists([a, b]) && HasLists(a.summary) && HasLists(b.summary) && f in LIST_FIELDS
    ensures AllItems([a, b], f) == a.summary.lists[f] + b.summary.lists[f]
  {
    assert [a, b][..1] == [a] && [a][..0] == [];
    assert AllItems([], f) == [];
    assert AllItems([a], f) == a.summary.lists[f];
  }

  lemma AnswersHaveAllLists()
    ensures HasLists(FIRST) && HasLists(SECOND) && AllHaveLists(RESULTS) && Uncertainties in LIST_FIELDS
    ensures FIRST.lists[Uncertainties] == LETTERS && SECOND.lists[Uncertainties] == []
  {
    UncertaintiesAreListed();
  }

  lemma RunUncertain(norm: Utf16 -> Utf16)
    requires AllDifferent(norm, LETTERS)
    ensures AllHaveLists(RESULTS) && Uncertainties in LIST_FIELDS && Uncertain(norm, RESULTS) == LETTERS
  {
    AnswersHaveAllLists();
    ItemsOfTwo(RESULTS[0], RESULTS[1], Uncertainties);
    assert LETTERS + [] == LETTERS;
    DifferentAreKept(norm, LETTERS);
  }

  lemma RunOverflows(
    norm: Utf16 -> Utf16, segmenter: Utf16 -> seq<Utf16>, overflow: seq<Dropped>, whole: StructuredSummary)
    requires AllHaveLists(RESULTS) && AggregateOf(norm, RESULTS, segmenter, OverflowNotice, overflow, whole)
    ensures overflow != []
  {
    PartsOfRun();
  }

  lemma RunListed(
    norm: Utf16 -> Utf16, segmenter: Utf16 -> seq<Utf16>, overflow: seq<Dropped>, whole: StructuredSummary)
    requires AllDifferent(norm, LETTERS) && AllHaveLists(RESULTS)
    requires AggregateOf(norm, RESULTS, segmenter, OverflowNotice, overflow, whole) && overflow != []
    ensures Uncertainties in whole.lists && whole.lists[Uncertainties] == LETTERS + [OverflowNotice(overflow)]
  {
    UncertaintiesAreListed();
    RunUncertain(norm);
    MergedLists(norm, RESULTS, Uncertainties);
  }

  lemma NoticesDiffer(overflow: seq<Dropped>, answered: nat, c: Completion, timeoutMs: nat)
    ensures OverflowNotice(overflow) !in LETTERS && OverflowNotice(overflow) != IncompleteNotice(answered, c, timeoutMs)
  {
    OverflowTextFits(Listed(Wordings(overflow), ", "));
    IncompleteTextFits(
      Decimal(answered), Decimal(c.plannedChunks), Listed(IncompleteReasons(c, timeoutMs), "; "));
  }

  lemma NoticeReplaced(items: seq<Utf16>, dropped: Utf16, text: Utf16)
    requires |items| == MAX_ITEMS - 1 && dropped !in items && dropped != text
    ensures dropped in items + [dropped] && dropped !in Take(items + [dropped], MAX_ITEMS - 1) + [text]
  {
    assert (items + [dropped])[|items|] == dropped;
    assert Take(items + [dropped], MAX_ITEMS - 1) == items;
  }

  /** Two answers of the model, a third chunk without one: the aggregate of the answers says
      that its text was cut, and the summary that is returned does not. */
  lemma OverflowNoticeLost(
    norm: Utf16 -> Utf16, segmenter: Utf16 -> seq<Utf16>, timeoutMs: nat,
    overflow: seq<Dropped>, whole: StructuredSummary)
    requires AllDifferent(norm, LETTERS) && AllHaveLists(RESULTS)
    requires AggregateOf(norm, RESULTS, segmenter, OverflowNotice, overflow, whole)
    ensures ReadAnswer(Stored(FIRST).fields, segmenter) == FIRST
    ensures ReadAnswer(Stored(SECOND).fields, segmenter) == SECOND
    ensures StoppedAt(CALLS, 4, 3) && Answers(PLAN, CALLS, 3) == RESULTS
    ensures overflow != [] && Uncertainties in whole.lists
    ensures
      var marked := WithIncompleteNotice(whole, IncompleteNotice(2, Completion(false, 3, 1, 0), timeoutMs));
      && OverflowNotice(overflow) in whole.lists[Uncertainties]
      && OverflowNotice(overflow) !in marked.lists[Uncertainties]
  {
    BothAreAnswers(segmenter);
    RunAnswers();
    RunOverflows(norm, segmenter, overflow, whole);
    RunListed(norm, segmenter, overflow, whole);
    NoticesDiffer(overflow, 2, Completion(false, 3, 1, 0), timeoutMs);
    NoticeReplaced(LETTERS, OverflowNotice(overflow), IncompleteNotice(2, Completion(false, 3, 1, 0), timeoutMs));
  }
}

/** The stored summaries (src/jobs/pipeline.ts:421-488 and 636-642): whatever the model
    answers and however the chunk calls end, each payload is read back as it was written. */
module SummaryStoreClass {

  import opened Common
  import opened SummarySchema
  import opened SummaryMerge
  import opened SummaryAggregate
  import opened SummaryParse
  import opened SummaryStorage
  import opened StableSummary
  import opened SummaryCompletion
  import opened AggregateStorage
  import opened SummaryNotices
  import opened SummaryAnswer

  // ------------------------------------------------------------------- `summarize`

  /** How an attempt to summarize goes: the prompt has no room, the chunks are asked for, or
      something throws. */
  datatype Attempt =
    | NoRoom(contextTokens: nat)
    | Asked(plan: seq<seq<nat>>, calls: seq<Call>, deadline: int, timeoutMs: nat)
    | Failed

  ghost predicate IsAnswer(s: StructuredSummary, segmenter: Utf16 -> seq<Utf16>) {
    exists record: Record :: s == ReadAnswer(record, segmenter)
  }

  /** Each answer is what was made of an answer of the model. */
  ghost predicate AllAnswers(calls: seq<Call>, segmenter: Utf16 -> seq<Utf16>) {
    forall response :: response in Responses(calls) && response.Answered? ==> IsAnswer(response.summary, segmenter)
  }

  ghost predicate Possible(attempt: Attempt, segmenter: Utf16 -> seq<Utf16>) {
    match attempt
    case NoRoom(contextTokens) => contextTokens <= MAX_SAFE_INTEGER
    case Asked(plan, calls, _, timeoutMs) =>
      && |plan| <= MAX_SAFE_INTEGER && timeoutMs <= MAX_SAFE_INTEGER
      && |calls| == Min(|plan|, MAX_SUMMARY_CHUNK_CALLS) && AllAnswers(calls, segmenter)
    case Failed => true
  }

  lemma AnswerIsWithinBounds(s: StructuredSummary, segmenter: Utf16 -> seq<Utf16>)
    requires IsAnswer(s, segmenter)
    ensures WithinBounds(s) && HasLists(s)
  {
    var record: Record :| s == ReadAnswer(record, segmenter);
    AnswerWithinBounds(record, segmenter);
    assert forall f :: f in LIST_FIELDS ==> f in s.lists.Keys;
  }

  lemma ResultsWithinBounds(calls: seq<Call>, results: seq<ChunkSummary>, segmenter: Utf16 -> seq<Utf16>)
    requires AllAnswers(calls, segmenter) && FromCalls(calls, results)
    ensures AllWithinBounds(results)
  {
    forall k | 0 <= k < |results| ensures WithinBounds(results[k].summary) {
      assert Answered(results[k].summary) in Responses(calls);
      AnswerIsWithinBounds(results[k].summary, segmenter);
    }
  }

  /** An aggregate of answers is within bounds. */
  lemma WholeWithinBounds(
    norm: Utf16 -> Utf16, results: seq<ChunkSummary>, segmenter: Utf16 -> seq<Utf16>,
    overflow: seq<Dropped>, whole: StructuredSummary)
    requires AllHaveLists(results) && AllWithinBounds(results) && |results| <= MAX_SUMMARY_CHUNK_CALLS
    requires Aggregated(norm, results, segmenter, OverflowNotice, overflow, whole)
    ensures WithinBounds(whole)
  {
    OverflowNoticeFits(norm, results);
    forall d ensures Trim(OverflowNotice(d)) != [] { OverflowNoticeVisible(d); }
    AggregateWithinBounds(norm, results, segmenter, OverflowNotice, overflow, whole);
  }

  lemma MarkedAnswerWithinBounds(whole: StructuredSummary, answered: nat, c: Completion, timeoutMs: nat)
    requires WithinBounds(whole) && Uncertainties in whole.lists && Safe(answered, c, timeoutMs)
    ensures WithinBounds(WithIncompleteNotice(whole, IncompleteNotice(answered, c, timeoutMs)))
  {
    IncompleteNoticeFits(answered, c, timeoutMs);
    MarkedWithinBounds(whole, IncompleteNotice(answered, c, timeoutMs));
  }

  lemma EmptyReadsBack()
    ensures Parse(Stored(EMPTY_SUMMARY)) == EMPTY_SUMMARY && WithinBounds(EMPTY_SUMMARY)
    ensures Uncertainties in EMPTY_SUMMARY.lists
  {
    assert EMPTY_SUMMARY == Parse(Null);
    ParsedLists(Null);
    ParsedWithinBounds(Null);
    RereadingShortIsExact(Null);
  }

  lemma EnvelopeWithinBounds(contextTokens: nat)
    requires contextTokens <= MAX_SAFE_INTEGER
    ensures Uncertainties in EMPTY_SUMMARY.lists
    ensures WithinBounds(WithIncompleteNotice(EMPTY_SUMMARY, EnvelopeNotice(contextTokens)))
  {
    EnvelopeNoticeFits(contextTokens);
    EmptyMarked(EnvelopeNotice(contextTokens));
  }

  lemma EmptyMarked(notice: Utf16)
    requires |notice| <= MAX_ITEM_LENGTH && Trim(notice) != []
    ensures Uncertainties in EMPTY_SUMMARY.lists && WithinBounds(WithIncompleteNotice(EMPTY_SUMMARY, notice))
  {
    EmptyReadsBack();
    MarkedWithinBounds(EMPTY_SUMMARY, notice);
  }

  method SummarizeAsked(
    plan: seq<seq<nat>>, calls: seq<Call>, deadline: int, timeoutMs: nat,
    norm: Utf16 -> Utf16, segmenter: Utf16 -> seq<Utf16>)
    returns (r: Option<StructuredSummary>)
    requires Possible(Asked(plan, calls, deadline, timeoutMs), segmenter)
    ensures r.Some? ==> WithinBounds(r.value)
  {
    forall k | 0 <= k < |calls| && calls[k].response.Answered? ensures HasLists(calls[k].response.summary) {
      assert calls[k].response in Responses(calls);
      AnswerIsWithinBounds(calls[k].response.summary, segmenter);
    }
    var incompleteNotice := (answered: nat, c: Completion) => IncompleteNotice(answered, c, timeoutMs);
    ghost var results, overflow, c;
    r, results, overflow, c :=
      SummarizeChunks(plan, calls, deadline, norm, segmenter, OverflowNotice, incompleteNotice);
    if r.Some? {
      ResultsWithinBounds(calls, results, segmenter);
      if |results| == |plan| {
        WholeWithinBounds(norm, results, segmenter, overflow, r.value);
      } else {
        ghost var whole :|
          && Aggregated(norm, results, segmenter, OverflowNotice, overflow, whole) && Uncertainties in whole.lists
          && r.value == WithIncompleteNotice(whole, incompleteNotice(|results|, c));
        WholeWithinBounds(norm, results, segmenter, overflow, whole);
        MarkedAnswerWithinBounds(whole, |results|, c, timeoutMs);
      }
    }
  }

  /** Every summary that is returned is within bounds. */
  method Summarize(attempt: Attempt, norm: Utf16 -> Utf16, segmenter: Utf16 -> seq<Utf16>)
    returns (r: Option<StructuredSummary>)
    requires Possible(attempt, segmenter)
    ensures r.Some? ==> WithinBounds(r.value)
  {
    match attempt {
      case NoRoom(contextTokens) =>
        EnvelopeWithinBounds(contextTokens);
        r := Some(WithIncompleteNotice(EMPTY_SUMMARY, EnvelopeNotice(contextTokens)));
      case Asked(plan, calls, deadline, timeoutMs) =>
        r := SummarizeAsked(plan, calls, deadline, timeoutMs, norm, segmenter);
      case Failed =>
        r := None;
    }
  }

  // ---------------------------------------------------------------------- the table

  /** What is written for a result of `summarize`, or without one. */
  function Kept(result: Option<StructuredSummary>, count: nat): StructuredSummary {
    if result.Some? then Written(result.value, count) else EMPTY_SUMMARY
  }

  /** A payload that is read as a summary within bounds and would be written again as it is. */
  ghost predicate ReadsBack(payload: Json) { WithinBounds(Parse(payload)) && Stored(Parse(payload)) == payload }

  lemma KeptReadsBack(result: Option<StructuredSummary>, count: nat)
    requires result.Some? ==> WithinBounds(result.value)
    ensures Parse(Stored(Kept(result, count))) == Kept(result, count) && ReadsBack(Stored(Kept(result, count)))
  {
    if result.Some? { WrittenReadsBack(result.value, count); } else { EmptyReadsBack(); }
  }

  ghost predicate AllReadBack(payloads: map<Utf16, Json>) {
    forall revision :: revision in payloads ==> ReadsBack(payloads[revision])
  }

  lemma InsertReadsBack(payloads: map<Utf16, Json>, revision: Utf16, payload: Json)
    requires AllReadBack(payloads) && ReadsBack(payload)
    ensures AllReadBack(payloads[revision := payload])
  {
  }

  method Bound(result: Option<StructuredSummary>, count: nat) returns (payload: Json)
    requires result.Some? ==> WithinBounds(result.value)
    ensures payload == Stored(Kept(result, count)) && ReadsBack(payload) && Parse(payload) == Kept(result, count)
  {
    var summary := EMPTY_SUMMARY;
    if result.Some? {
      summary := BoundClaimEvidence(Parse(Stored(result.value)), count);
    }
    payload := Stored(summary);
    KeptReadsBack(result, count);
  }

  /** The `summaries` table, one payload a revision. */
  class SummaryStore {
    var payloads: map<Utf16, Json>

    ghost predicate Valid() reads this { AllReadBack(payloads) }

    constructor ()
      ensures Valid() && payloads == map[]
    {
      payloads := map[];
    }

    /** A revision that has a summary keeps it; any other gets one, and reading it gives
        exactly what was written. */
    method HandleSummarize(
      revision: Utf16, count: nat, attempt: Attempt, norm: Utf16 -> Utf16, segmenter: Utf16 -> seq<Utf16>)
      returns (ghost result: Option<StructuredSummary>)
      requires Valid() && Possible(attempt, segmenter)
      modifies this
      ensures Valid() && (result.Some? ==> WithinBounds(result.value))
      ensures payloads ==
        if revision in old(payloads) then old(payloads) else old(payloads)[revision := Stored(Kept(result, count))]
      ensures revision !in old(payloads) ==> Parse(payloads[revision]) == Kept(result, count)
    {
      result := None;
      if revision in payloads { return; }
      var summarized := Summarize(attempt, norm, segmenter);
      result := summarized;
      var payload := Bound(summarized, count);
      InsertReadsBack(payloads, revision, payload);
      payloads := payloads[revision := payload];
    }

    method ReadSummary(revision: Utf16) returns (r: StructuredSummary)
      requires Valid() && revision in payloads
      ensures Stored(r) == payloads[revision] && Parse(Stored(r)) == r && WithinBounds(r)
    {
      r := Parse(payloads[revision]);
    }
  }
}

/** The chunk calls of `summarize` (src/llm/ollama.ts:414-471): a summary that does not say
    it is incomplete was made from the answers to every planned chunk, and saying so
    takes nothing from the claims but those about the place of the notice. */
module SummaryCompletion {

  import opened Common
  import opened SummarySchema
  import opened SummaryMerge
  import opened SummaryAggregate
  import opened SummaryProvenance

  const MAX_SUMMARY_CHUNK_CALLS := 64

  datatype Response = Answered(summary: StructuredSummary) | MalformedJson | InvalidSchema | TimedOut | OtherError

  /** What asking for one chunk comes to: the clock before and after, and the response. */
  datatype Call = Call(before: int, response: Response, after: int)

  datatype Completion = Completion(
    deadlineReached: bool, plannedChunks: nat, malformedChunks: nat, schemaInvalidChunks: nat)

  predicate IsSummaryComplete(c: Completion) {
    && !c.deadlineReached && c.plannedChunks <= MAX_SUMMARY_CHUNK_CALLS
    && c.malformedChunks == 0 && c.schemaInvalidChunks == 0
  }

  /** No time left to ask, an answer after the deadline, or an error at or after it. */
  predicate Late(call: Call, deadline: int) {
    || deadline - call.before <= 0
    || (call.response.Answered? && call.after > deadline)
    || (!call.response.Answered? && (call.after >= deadline || call.response.TimedOut?))
  }

  /** The answers among the first `n` calls, each with the segments its chunk showed. */
  function Answers(plan: seq<seq<nat>>, calls: seq<Call>, n: nat): seq<ChunkSummary>
    requires n <= |calls| && n <= |plan|
  {
    if n == 0 then []
    else
      Answers(plan, calls, n - 1) +
      if calls[n - 1].response.Answered? then [ChunkSummary(plan[n - 1], calls[n - 1].response.summary)] else []
  }

  function CountOf(calls: seq<Call>, n: nat, response: Response): nat
    requires n <= |calls|
  {
    if n == 0 then 0 else CountOf(calls, n - 1, response) + if calls[n - 1].response == response then 1 else 0
  }

  /** Every call is an answer or a counted failure. */
  lemma {:induction false} CallsAreCounted(plan: seq<seq<nat>>, calls: seq<Call>, n: nat)
    requires n <= |calls| && n <= |plan|
    requires forall k :: 0 <= k < n ==> !calls[k].response.OtherError? && !calls[k].response.TimedOut?
    ensures |Answers(plan, calls, n)| + CountOf(calls, n, MalformedJson) + CountOf(calls, n, InvalidSchema) == n
  {
    if n > 0 { CallsAreCounted(plan, calls, n - 1); }
  }

  lemma {:induction false} AllAnswered(plan: seq<seq<nat>>, calls: seq<Call>, n: nat)
    requires n <= |calls| && n <= |plan| && |Answers(plan, calls, n)| == n
    ensures forall k :: 0 <= k < n ==>
      calls[k].response.Answered? && Answers(plan, calls, n)[k] == ChunkSummary(plan[k], calls[k].response.summary)
  {
    if n > 0 {
      AnswersBound(plan, calls, n - 1);
      AllAnswered(plan, calls, n - 1);
    }
  }

  lemma {:induction false} AnswersBound(plan: seq<seq<nat>>, calls: seq<Call>, n: nat)
    requires n <= |calls| && n <= |plan|
    ensures |Answers(plan, calls, n)| <= n
  {
    if n > 0 { AnswersBound(plan, calls, n - 1); }
  }

  /** The calls up to the first late one were made, and none after it. */
  ghost predicate StoppedAt(calls: seq<Call>, deadline: int, n: nat) {
    && n <= |calls| && (forall k :: 0 <= k < n ==> !Late(calls[k], deadline) && !calls[k].response.OtherError?)
    && (n < |calls| ==> Late(calls[n], deadline))
  }

  /** The loop over the chunks; `None` when a call failed in another way. `plan` lists the
      segments of each planned chunk, `calls` what asking for each would come to. */
  method CollectAnswers(plan: seq<seq<nat>>, calls: seq<Call>, deadline: int)
    returns (r: Option<(seq<ChunkSummary>, Completion)>, ghost n: nat)
    requires |calls| == Min(|plan|, MAX_SUMMARY_CHUNK_CALLS)
    ensures r.Some? ==>
      var c := r.value.1;
      && StoppedAt(calls, deadline, n) && r.value.0 == Answers(plan, calls, n)
      && c.plannedChunks == |plan| && (c.deadlineReached <==> n < |calls|)
      && c.malformedChunks == CountOf(calls, n, MalformedJson)
      && c.schemaInvalidChunks == CountOf(calls, n, InvalidSchema)
    ensures r.None? ==> n < |calls| && calls[n].response.OtherError? && !Late(calls[n], deadline)
  {
    var results: seq<ChunkSummary>, malformed, schemaInvalid := [], 0, 0;
    n := 0;
    for k := 0 to |calls|
      invariant n == k && (forall i :: 0 <= i < k ==> !Late(calls[i], deadline) && !calls[i].response.OtherError?)
      invariant results == Answers(plan, calls, k)
      invariant malformed == CountOf(calls, k, MalformedJson) && schemaInvalid == CountOf(calls, k, InvalidSchema)
    {
      if deadline - calls[k].before <= 0 {
        return Some((results, Completion(true, |plan|, malformed, schemaInvalid))), k;
      }
      match calls[k].response {
      case Answered(summary) =>
        if calls[k].after > deadline {
          return Some((results, Completion(true, |plan|, malformed, schemaInvalid))), k;
        }
        results := results + [ChunkSummary(plan[k], summary)];
      case _ =>
        if calls[k].after >= deadline || calls[k].response.TimedOut? {
          return Some((results, Completion(true, |plan|, malformed, schemaInvalid))), k;
        }
        if calls[k].response.MalformedJson? {
          malformed := malformed + 1;
        } else if calls[k].response.InvalidSchema? {
          schemaInvalid := schemaInvalid + 1;
        } else {
          return None, k;
        }
      }
      n := k + 1;
    }
    r := Some((results, Completion(false, |plan|, malformed, schemaInvalid)));
  }

  /** A run is complete exactly when every planned chunk was answered in time. */
  lemma CompleteIffAllAnswered(plan: seq<seq<nat>>, calls: seq<Call>, deadline: int, n: nat, c: Completion)
    requires |calls| == Min(|plan|, MAX_SUMMARY_CHUNK_CALLS) && StoppedAt(calls, deadline, n)
    requires c == Completion(n < |calls|, |plan|, CountOf(calls, n, MalformedJson), CountOf(calls, n, InvalidSchema))
    ensures IsSummaryComplete(c) <==> |Answers(plan, calls, n)| == |plan|
    ensures IsSummaryComplete(c) ==>
      forall k :: 0 <= k < |plan| ==>
        calls[k].response.Answered? && Answers(plan, calls, n)[k] == ChunkSummary(plan[k], calls[k].response.summary)
  {
    CallsAreCounted(plan, calls, n);
    if IsSummaryComplete(c) { AllAnswered(plan, calls, n); }
  }

  // -------------------------------------------------------------- the incomplete notice

  /** Without the claims about uncertainties from the one at `n` on. */
  function WithoutFrom(claims: seq<ClaimEvidence>, n: nat): seq<ClaimEvidence> {
    if claims == [] then []
    else
      var last := claims[|claims| - 1];
      WithoutFrom(claims[..|claims| - 1], n) + if last.field != Uncertainties || last.item < n then [last] else []
  }

  /** The notice takes the last place among the uncertainties. */
  function WithIncompleteNotice(r: StructuredSummary, notice: Utf16): StructuredSummary
    requires Uncertainties in r.lists
  {
    r.(lists := r.lists[Uncertainties := Take(r.lists[Uncertainties], MAX_ITEMS - 1) + [notice]],
       claimEvidence := WithoutFrom(r.claimEvidence, MAX_ITEMS - 1))
  }

  lemma {:induction false} WithoutFromFacts(claims: seq<ClaimEvidence>, n: nat)
    ensures forall c :: c in WithoutFrom(claims, n) <==> c in claims && (c.field != Uncertainties || c.item < n)
  {
    if claims != [] {
      WithoutFromFacts(claims[..|claims| - 1], n);
      assert claims == claims[..|claims| - 1] + [claims[|claims| - 1]];
    }
  }

  predicate AboutAnItem(r: StructuredSummary, c: ClaimEvidence) {
    c.field != Summary ==> c.field in r.lists && c.item < |r.lists[c.field]|
  }

  /** The claims that stay are about the same items as before, never about the notice,
      and only a claim about a twentieth uncertainty goes. */
  lemma NoticeKeepsClaims(r: StructuredSummary, notice: Utf16)
    requires Uncertainties in r.lists && forall c :: c in r.claimEvidence ==> AboutAnItem(r, c)
    ensures
      var marked := WithIncompleteNotice(r, notice);
      && marked.summary == r.summary && |marked.lists[Uncertainties]| <= MAX_ITEMS
      && marked.lists[Uncertainties][|marked.lists[Uncertainties]| - 1] == notice
      && (forall f :: f in r.lists && f != Uncertainties ==> marked.lists[f] == r.lists[f])
      && (forall c :: c in marked.claimEvidence <==>
            c in r.claimEvidence && !(c.field == Uncertainties && c.item >= MAX_ITEMS - 1))
      && forall c :: c in marked.claimEvidence && c.field != Summary ==>
           && AboutAnItem(r, c) && c.field in marked.lists && c.item < |marked.lists[c.field]|
           && marked.lists[c.field][c.item] == r.lists[c.field][c.item]
           && !(c.field == Uncertainties && c.item == |marked.lists[Uncertainties]| - 1)
  {
    WithoutFromFacts(r.claimEvidence, MAX_ITEMS - 1);
  }

  /** The different uncertainties in the answers, in order. */
  function Uncertain(norm: Utf16 -> Utf16, results: seq<ChunkSummary>): seq<Utf16>
    requires AllHaveLists(results) && Uncertainties in LIST_FIELDS
  {
    FirstOccurrences(norm, AllItems(results, Uncertainties))
  }

  lemma UncertaintiesAreListed()
    ensures Uncertainties in LIST_FIELDS
  {
    ListFieldsDistinct();
  }

  /** When an aggregate that dropped something is also incomplete, its notice keeps its
      place exactly with fewer than nineteen different uncertainties in the answers: with
      more, the notice of incompleteness takes it. */
  lemma OverflowNoticeSurvivesIff(
    norm: Utf16 -> Utf16, results: seq<ChunkSummary>, segmenter: Utf16 -> seq<Utf16>, notice: seq<Dropped> -> Utf16,
    overflow: seq<Dropped>, whole: StructuredSummary, text: Utf16)
    requires AllHaveLists(results) && AggregateOf(norm, results, segmenter, notice, overflow, whole) && overflow != []
    ensures Uncertainties in LIST_FIELDS && Uncertainties in whole.lists
    ensures
      var met, marked := Uncertain(norm, results), WithIncompleteNotice(whole, text).lists[Uncertainties];
      && marked == Take(met, MAX_ITEMS - 1) + (if |met| < MAX_ITEMS - 1 then [notice(overflow)] else []) + [text]
      && (notice(overflow) != text ==> (whole.lists[Uncertainties] <= marked <==> |met| < MAX_ITEMS - 1))
  {
    UncertaintiesAreListed();
    MergedLists(norm, results, Uncertainties);
    var met := Uncertain(norm, results);
    assert whole.lists[Uncertainties] == Take(met, MAX_ITEMS - 1) + [notice(overflow)];
    TwoNotices(met, notice(overflow), text);
  }

  lemma TwoNotices(met: seq<Utf16>, dropped: Utf16, text: Utf16)
    ensures
      var whole := Take(met, MAX_ITEMS - 1) + [dropped];
      var marked := Take(whole, MAX_ITEMS - 1) + [text];
      && marked == Take(met, MAX_ITEMS - 1) + (if |met| < MAX_ITEMS - 1 then [dropped] else []) + [text]
      && (dropped != text ==> (whole <= marked <==> |met| < MAX_ITEMS - 1))
  {
    var whole := Take(met, MAX_ITEMS - 1) + [dropped];
    var marked := Take(whole, MAX_ITEMS - 1) + [text];
    if |met| >= MAX_ITEMS - 1 {
      assert whole[MAX_ITEMS - 1] == dropped && marked[MAX_ITEMS - 1] == text;
    }
  }

  /** `summarize` once the chunks are planned. */
  method SummarizeChunks(
    plan: seq<seq<nat>>, calls: seq<Call>, deadline: int, norm: Utf16 -> Utf16, segmenter: Utf16 -> seq<Utf16>,
    overflowNotice: seq<Dropped> -> Utf16, incompleteNotice: (nat, Completion) -> Utf16)
    returns (r: Option<StructuredSummary>, ghost results: seq<ChunkSummary>, ghost overflow: seq<Dropped>,
             ghost completion: Completion)
    requires |calls| == Min(|plan|, MAX_SUMMARY_CHUNK_CALLS)
    requires forall k :: 0 <= k < |calls| && calls[k].response.Answered? ==> HasLists(calls[k].response.summary)
    ensures r.Some? ==> AllHaveLists(results) && FromCalls(calls, results) && CountsOf(plan, calls, completion)
    // without a notice, the summary is the aggregate of the answers to the whole plan
    ensures r.Some? && |results| == |plan| ==>
      && (forall k :: 0 <= k < |plan| ==>
            && k < |calls| && calls[k].response.Answered?
            && results[k] == ChunkSummary(plan[k], calls[k].response.summary))
      && Aggregated(norm, results, segmenter, overflowNotice, overflow, r.value)
    // otherwise it is that of the answers there are, and says so
    ensures r.Some? && |results| != |plan| ==>
      exists whole ::
        && Aggregated(norm, results, segmenter, overflowNotice, overflow, whole) && Uncertainties in whole.lists
        && r.value == WithIncompleteNotice(whole, incompleteNotice(|results|, completion))
  {
    results, overflow, completion := [], [], Completion(false, 0, 0, 0);
    var collected, n := CollectAnswers(plan, calls, deadline);
    if collected.None? { return None, [], [], completion; }
    var (answers, counts) := collected.value;
    results, completion := answers, counts;
    AnswersHaveLists(plan, calls, n);
    AnswersFromCalls(plan, calls, n);
    CountsBound(calls, n);
    CompleteIffAllAnswered(plan, calls, deadline, n, counts);
    var whole;
    whole, overflow := AggregateChunkSummaries(answers, norm, segmenter, overflowNotice);
    AggregateHasUncertainties(norm, answers, segmenter, overflowNotice, overflow, whole);
    if IsSummaryComplete(counts) {
      r := Some(whole);
    } else {
      r := Some(WithIncompleteNotice(whole, incompleteNotice(|answers|, counts)));
    }
  }

  ghost predicate FromCalls(calls: seq<Call>, results: seq<ChunkSummary>) {
    && |results| <= |calls|
    && forall k :: 0 <= k < |results| ==> Answered(results[k].summary) in Responses(calls)
  }

  ghost function Responses(calls: seq<Call>): set<Response> { set k | 0 <= k < |calls| :: calls[k].response }

  ghost predicate CountsOf(plan: seq<seq<nat>>, calls: seq<Call>, c: Completion) {
    c.plannedChunks == |plan| && c.malformedChunks <= |calls| && c.schemaInvalidChunks <= |calls|
  }

  lemma {:induction false} AnswersFromCalls(plan: seq<seq<nat>>, calls: seq<Call>, n: nat)
    requires n <= |calls| && n <= |plan|
    ensures FromCalls(calls, Answers(plan, calls, n))
  {
    AnswersBound(plan, calls, n);
    if n > 0 { AnswersFromCalls(plan, calls, n - 1); }
  }

  lemma {:induction false} CountsBound(calls: seq<Call>, n: nat)
    requires n <= |calls|
    ensures CountOf(calls, n, MalformedJson) <= n && CountOf(calls, n, InvalidSchema) <= n
  {
    if n > 0 { CountsBound(calls, n - 1); }
  }

  ghost predicate Aggregated(
    norm: Utf16 -> Utf16, results: seq<ChunkSummary>, segmenter: Utf16 -> seq<Utf16>, notice: seq<Dropped> -> Utf16,
    overflow: seq<Dropped>, r: StructuredSummary)
    requires AllHaveLists(results)
  {
    if results == [] then r == EMPTY_SUMMARY else AggregateOf(norm, results, segmenter, notice, overflow, r)
  }

  lemma AggregateHasUncertainties(
    norm: Utf16 -> Utf16, results: seq<ChunkSummary>, segmenter: Utf16 -> seq<Utf16>, notice: seq<Dropped> -> Utf16,
    overflow: seq<Dropped>, r: StructuredSummary)
    requires AllHaveLists(results) && Aggregated(norm, results, segmenter, notice, overflow, r)
    ensures Uncertainties in r.lists
  {
    ListFieldsDistinct();
  }

  lemma {:induction false} AnswersHaveLists(plan: seq<seq<nat>>, calls: seq<Call>, n: nat)
    requires n <= |calls| && n <= |plan|
    requires forall k :: 0 <= k < |calls| && calls[k].response.Answered? ==> HasLists(calls[k].response.summary)
    ensures AllHaveLists(Answers(plan, calls, n))
  {
    if n > 0 { AnswersHaveLists(plan, calls, n - 1); }
  }
}

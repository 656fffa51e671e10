/** An aggregated summary is within the bounds of the stored form, so storing it discards
    nothing (src/llm/summary-plan.ts:292-352, src/llm/schema.ts:137-283). */
module AggregateStorage {

  import opened Common
  import opened SummarySchema
  import opened SummaryMerge
  import opened SummaryProvenance
  import opened SummaryAggregate
  import opened SummaryParse
  import opened SummaryStorage
  import opened SummaryCompletion

  // ------------------------------------------------------------------- visible text

  lemma {:induction false} PartsVisible(results: seq<ChunkSummary>)
    ensures forall k :: 0 <= k < |SummaryParts(results)| ==>
      SummaryParts(results)[k] != [] && !IsSpace(SummaryParts(results)[k][0])
  {
    if results != [] {
      PartsVisible(results[..|results| - 1]);
      TrimFacts(results[|results| - 1].summary.summary);
    }
  }

  lemma {:induction false} JoinedVisible(parts: seq<Utf16>)
    requires forall k :: 0 <= k < |parts| ==> parts[k] != [] && !IsSpace(parts[k][0])
    ensures Joined(parts) != [] ==> !IsSpace(Joined(parts)[0])
    ensures parts != [] ==> Joined(parts) != []
  {
    if |parts| > 1 { JoinedVisible(parts[..|parts| - 1]); }
  }

  /** The chunk summaries come from parsing. */
  ghost predicate AllParsed(results: seq<ChunkSummary>) {
    forall k :: 0 <= k < |results| ==> Storable(results[k].summary)
  }

  predicate Visible(items: seq<Utf16>) { forall i :: 0 <= i < |items| ==> Trim(items[i]) != [] }

  lemma {:induction false} AllItemsVisible(results: seq<ChunkSummary>, f: ClaimField)
    requires AllHaveLists(results) && AllParsed(results) && f in LIST_FIELDS
    ensures Visible(AllItems(results, f))
  {
    if results != [] {
      AllItemsVisible(results[..|results| - 1], f);
      assert Storable(results[|results| - 1].summary);
    }
  }

  lemma {:induction false} OccurrencesVisible(norm: Utf16 -> Utf16, items: seq<Utf16>)
    requires Visible(items)
    ensures Visible(FirstOccurrences(norm, items))
  {
    if items != [] { OccurrencesVisible(norm, items[..|items| - 1]); }
  }

  lemma MergedVisible(norm: Utf16 -> Utf16, results: seq<ChunkSummary>, f: ClaimField)
    requires AllHaveLists(results) && AllParsed(results) && f in LIST_FIELDS
    ensures Visible(Merged(norm, results).lists[f])
  {
    MergedLists(norm, results, f);
    AllItemsVisible(results, f);
    OccurrencesVisible(norm, AllItems(results, f));
  }

  // ----------------------------------------------------------------- how many claims

  function FieldIndex(f: ClaimField): nat {
    match f
    case Summary => 0
    case Decisions => 0
    case Tasks => 1
    case Commitments => 2
    case People => 3
    case Places => 4
    case Expenses => 5
    case Ideas => 6
    case Questions => 7
    case Uncertainties => 8
  }

  /** A number for every claim that can be made. */
  function Code(c: ClaimEvidence): nat {
    if c.field == Summary then 0 else 1 + FieldIndex(c.field) * MAX_ITEMS + c.item
  }

  function Codes(claims: seq<ClaimEvidence>): seq<nat> {
    seq(|claims|, i requires 0 <= i < |claims| => Code(claims[i]))
  }

  /** Ten fields with twenty items each but the summary's one leave room for 181 claims. */
  lemma ClaimsFit(claims: seq<ClaimEvidence>)
    requires DifferentClaims(claims)
    requires forall k :: 0 <= k < |claims| ==> claims[k].item < if claims[k].field == Summary then 1 else MAX_ITEMS
    ensures |claims| <= MAX_CLAIM_EVIDENCE
  {
    var codes := Codes(claims);
    forall j, k | 0 <= j < k < |codes| ensures codes[j] != codes[k] { }
    NoMoreThan(codes, MAX_CLAIM_EVIDENCE);
  }

  // -------------------------------------------------------------------- the theorem

  lemma OutputReadable(
    norm: Utf16 -> Utf16, results: seq<ChunkSummary>, joined: Utf16, notice: seq<Dropped> -> Utf16,
    overflow: seq<Dropped>, r: StructuredSummary, f: ClaimField)
    requires AllHaveLists(results) && AllParsed(results) && f in LIST_FIELDS && f in r.lists
    requires NothingSilent(Merged(norm, results), joined, notice, overflow, r)
    requires forall d :: Trim(notice(d)) != []
    ensures Readable(r.lists[f])
  {
    MergedVisible(norm, results, f);
    StillVisible(Merged(norm, results), joined, notice, overflow, r, f);
  }

  lemma StillVisible(
    s: State, joined: Utf16, notice: seq<Dropped> -> Utf16, overflow: seq<Dropped>, r: StructuredSummary, f: ClaimField)
    requires NothingSilent(s, joined, notice, overflow, r) && f in r.lists && Visible(s.lists[f])
    requires Trim(notice(overflow)) != []
    ensures Readable(r.lists[f])
  {
    assert Visible(Take(s.lists[f], MAX_ITEMS)) && Visible(Take(s.lists[f], MAX_ITEMS - 1));
  }

  lemma OutputClaimPoints(
    norm: Utf16 -> Utf16, results: seq<ChunkSummary>, joined: Utf16, r: StructuredSummary, c: ClaimEvidence)
    requires AllHaveLists(results) && joined == Joined(SummaryParts(results))
    requires ClaimStands(norm, results, Merged(norm, results), joined, r, c)
    ensures PointsAtItem(r, c)
  {
    if c.field == Summary {
      PartsVisible(results);
      JoinedVisible(SummaryParts(results));
      TrimVisible(joined);
    }
  }

  /** Whatever was aggregated fits the stored form. */
  lemma AggregateStorable(
    norm: Utf16 -> Utf16, results: seq<ChunkSummary>, segmenter: Utf16 -> seq<Utf16>, notice: seq<Dropped> -> Utf16,
    overflow: seq<Dropped>, r: StructuredSummary)
    requires AllHaveLists(results) && AllParsed(results) && AggregateOf(norm, results, segmenter, notice, overflow, r)
    requires forall d :: Trim(notice(d)) != []
    ensures Storable(r)
  {
    var joined := Joined(SummaryParts(results));
    MergedOrder(norm, results);
    forall f | f in r.lists ensures Readable(r.lists[f]) {
      OutputReadable(norm, results, joined, notice, overflow, r, f);
    }
    forall i | 0 <= i < |r.claimEvidence| ensures PointsAtItem(r, r.claimEvidence[i]) {
      assert r.claimEvidence[i] in r.claimEvidence;
      OutputClaimPoints(norm, results, joined, r, r.claimEvidence[i]);
    }
    ClaimsFit(r.claimEvidence);
    BoundedFacts(Legacy(results));
  }

  /** Storing an aggregate and reading it back keeps all its claims and list items. */
  lemma StoringAggregateKeepsClaims(
    norm: Utf16 -> Utf16, results: seq<ChunkSummary>, segmenter: Utf16 -> seq<Utf16>, notice: seq<Dropped> -> Utf16,
    overflow: seq<Dropped>, r: StructuredSummary)
    requires AllHaveLists(results) && AllParsed(results) && AggregateOf(norm, results, segmenter, notice, overflow, r)
    requires forall d :: Trim(notice(d)) != []
    ensures ReadsBackAs(r, Parse(Stored(r)))
  {
    AggregateStorable(norm, results, segmenter, notice, overflow, r);
    StorageKeepsClaims(r);
  }

  lemma AggregatedStorable(
    norm: Utf16 -> Utf16, results: seq<ChunkSummary>, segmenter: Utf16 -> seq<Utf16>, notice: seq<Dropped> -> Utf16,
    overflow: seq<Dropped>, r: StructuredSummary)
    requires AllHaveLists(results) && AllParsed(results) && Aggregated(norm, results, segmenter, notice, overflow, r)
    requires forall d :: Trim(notice(d)) != []
    ensures Storable(r)
  {
    if results == [] {
      assert r == Parse(Null);
      ParsedStorable(Null);
    } else {
      AggregateStorable(norm, results, segmenter, notice, overflow, r);
    }
  }

  // ------------------------------------------------------------- short aggregates too

  lemma {:induction false} AllItemsShort(results: seq<ChunkSummary>, f: ClaimField)
    requires AllHaveLists(results) && AllWithinBounds(results) && f in LIST_FIELDS
    ensures ShortItems(AllItems(results, f))
  {
    if results != [] {
      AllItemsShort(results[..|results| - 1], f);
      assert WithinBounds(results[|results| - 1].summary);
      assert ShortItems(results[|results| - 1].summary.lists[f]);
    }
  }

  ghost predicate AllWithinBounds(results: seq<ChunkSummary>) {
    forall k :: 0 <= k < |results| ==> WithinBounds(results[k].summary)
  }

  lemma {:induction false} OccurrencesShort(norm: Utf16 -> Utf16, items: seq<Utf16>)
    requires ShortItems(items)
    ensures ShortItems(FirstOccurrences(norm, items))
  {
    if items != [] { OccurrencesShort(norm, items[..|items| - 1]); }
  }

  lemma StillShort(
    s: State, joined: Utf16, notice: seq<Dropped> -> Utf16, overflow: seq<Dropped>, r: StructuredSummary, f: ClaimField)
    requires NothingSilent(s, joined, notice, overflow, r) && f in r.lists && ShortItems(s.lists[f])
    requires |notice(overflow)| <= MAX_ITEM_LENGTH
    ensures ShortItems(r.lists[f])
  {
    if overflow == [] {
      assert r.lists[f] == s.lists[f];
    } else if f == Uncertainties {
      NoticeShort(s.lists[f], notice(overflow));
    } else {
      TakeShort(s.lists[f], MAX_ITEMS);
    }
  }

  lemma TakeShort(items: seq<Utf16>, n: nat)
    requires ShortItems(items)
    ensures ShortItems(Take(items, n))
  {
  }

  lemma NoticeShort(items: seq<Utf16>, notice: Utf16)
    requires ShortItems(items) && |notice| <= MAX_ITEM_LENGTH
    ensures ShortItems(Take(items, MAX_ITEMS - 1) + [notice])
  {
  }

  lemma OutputShort(
    norm: Utf16 -> Utf16, results: seq<ChunkSummary>, joined: Utf16, notice: seq<Dropped> -> Utf16,
    overflow: seq<Dropped>, r: StructuredSummary, f: ClaimField)
    requires AllHaveLists(results) && AllWithinBounds(results) && f in LIST_FIELDS && f in r.lists
    requires NothingSilent(Merged(norm, results), joined, notice, overflow, r)
    requires |notice(overflow)| <= MAX_ITEM_LENGTH
    ensures ShortItems(r.lists[f])
  {
    MergedLists(norm, results, f);
    AllItemsShort(results, f);
    OccurrencesShort(norm, AllItems(results, f));
    StillShort(Merged(norm, results), joined, notice, overflow, r, f);
  }

  /** An aggregate of summaries within bounds is within bounds, if its notice is short. */
  lemma AggregateWithinBounds(
    norm: Utf16 -> Utf16, results: seq<ChunkSummary>, segmenter: Utf16 -> seq<Utf16>, notice: seq<Dropped> -> Utf16,
    overflow: seq<Dropped>, r: StructuredSummary)
    requires AllHaveLists(results) && AllWithinBounds(results)
    requires Aggregated(norm, results, segmenter, notice, overflow, r)
    requires results != [] ==> |notice(overflow)| <= MAX_ITEM_LENGTH
    requires forall d :: Trim(notice(d)) != []
    ensures WithinBounds(r)
  {
    assert forall k :: 0 <= k < |results| ==> WithinBounds(results[k].summary) ==> Storable(results[k].summary);
    AggregatedStorable(norm, results, segmenter, notice, overflow, r);
    forall f | f in r.lists ensures ShortItems(r.lists[f]) {
      if results != [] { OutputShort(norm, results, Joined(SummaryParts(results)), notice, overflow, r, f); }
    }
  }

  // ---------------------------------------------------- with the notice of incompleteness

  lemma {:induction false} WithoutFromDifferent(claims: seq<ClaimEvidence>, n: nat)
    requires DifferentClaims(claims)
    ensures DifferentClaims(WithoutFrom(claims, n)) && |WithoutFrom(claims, n)| <= |claims|
  {
    if claims != [] {
      WithoutFromDifferent(claims[..|claims| - 1], n);
      WithoutFromFacts(claims[..|claims| - 1], n);
    }
  }

  lemma MarkedClaimPoints(r: StructuredSummary, notice: Utf16, c: ClaimEvidence)
    requires Storable(r) && Uncertainties in r.lists && c in WithIncompleteNotice(r, notice).claimEvidence
    ensures PointsAtItem(WithIncompleteNotice(r, notice), c)
  {
    WithoutFromFacts(r.claimEvidence, MAX_ITEMS - 1);
    var k :| 0 <= k < |r.claimEvidence| && r.claimEvidence[k] == c;
    assert PointsAtItem(r, r.claimEvidence[k]);
  }

  lemma MarkedReadable(items: seq<Utf16>, notice: Utf16)
    requires Readable(items) && Trim(notice) != []
    ensures Readable(Take(items, MAX_ITEMS - 1) + [notice])
  {
  }

  /** Marking a summary as incomplete keeps it storable. */
  lemma MarkedStorable(r: StructuredSummary, notice: Utf16)
    requires Storable(r) && Uncertainties in r.lists && Trim(notice) != []
    ensures Storable(WithIncompleteNotice(r, notice))
  {
    var marked := WithIncompleteNotice(r, notice);
    WithoutFromDifferent(r.claimEvidence, MAX_ITEMS - 1);
    MarkedReadable(r.lists[Uncertainties], notice);
    forall i | 0 <= i < |marked.claimEvidence| ensures PointsAtItem(marked, marked.claimEvidence[i]) {
      MarkedClaimPoints(r, notice, marked.claimEvidence[i]);
    }
  }

  /** With a short notice it stays within all bounds. */
  lemma MarkedWithinBounds(r: StructuredSummary, notice: Utf16)
    requires WithinBounds(r) && Uncertainties in r.lists && Trim(notice) != [] && |notice| <= MAX_ITEM_LENGTH
    ensures WithinBounds(WithIncompleteNotice(r, notice))
  {
    MarkedStorable(r, notice);
    NoticeShort(r.lists[Uncertainties], notice);
  }

  /** So does storing what `summarize` gives when chunks are missing, however few were answered. */
  lemma StoringIncompleteKeepsClaims(
    norm: Utf16 -> Utf16, results: seq<ChunkSummary>, segmenter: Utf16 -> seq<Utf16>, notice: seq<Dropped> -> Utf16,
    overflow: seq<Dropped>, whole: StructuredSummary, text: Utf16)
    requires AllHaveLists(results) && AllParsed(results)
    requires Aggregated(norm, results, segmenter, notice, overflow, whole)
    requires Uncertainties in whole.lists && Trim(text) != [] && forall d :: Trim(notice(d)) != []
    ensures var r := WithIncompleteNotice(whole, text); ReadsBackAs(r, Parse(Stored(r)))
  {
    AggregatedStorable(norm, results, segmenter, notice, overflow, whole);
    MarkedStorable(whole, text);
    StorageKeepsClaims(WithIncompleteNotice(whole, text));
  }
}

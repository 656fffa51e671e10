/** The merge in terms of the chunk summaries alone: its lists are the first occurrences
    of all items, and no citation gets lost on the way to a claim. */
module SummaryProvenance {

  import opened Common
  import opened SummarySchema
  import opened SummaryMerge

  // ------------------------------------------------------------ first occurrences

  lemma {:induction false} ValuesAppend(a: seq<Entry>, b: seq<Entry>, f: ClaimField)
    ensures Values(a + b, f) == Values(a, f) + Values(b, f)
  {
    if b == [] {
      assert a + b == a;
    } else {
      assert (a + b)[..|a + b| - 1] == a + b[..|b| - 1];
      ValuesAppend(a, b[..|b| - 1], f);
    }
  }

  lemma {:induction false} SameOccurrences(norm: Utf16 -> Utf16, a: seq<Utf16>, b: seq<Utf16>, c: seq<Utf16>)
    requires FirstOccurrences(norm, a) == FirstOccurrences(norm, b)
    ensures FirstOccurrences(norm, a + c) == FirstOccurrences(norm, b + c)
  {
    if c == [] {
      assert a + c == a && b + c == b;
    } else {
      var front, last := c[..|c| - 1], c[|c| - 1];
      SameOccurrences(norm, a, b, front);
      assert a + c == (a + front) + [last] && b + c == (b + front) + [last];
      FirstOccurrencesAppend(norm, a + front, last);
      FirstOccurrencesAppend(norm, b + front, last);
    }
  }

  lemma RepeatChangesNothing(norm: Utf16 -> Utf16, items: seq<Utf16>, v: Utf16)
    requires Contains(norm, items, v)
    ensures FirstOccurrences(norm, items + [v]) == FirstOccurrences(norm, items)
  {
    FirstOccurrencesFacts(norm, items);
    FirstOccurrencesAppend(norm, items, v);
  }

  /** Repeats of a value already met. */
  ghost predicate Stutters(norm: Utf16 -> Utf16, so: seq<Utf16>, more: seq<Utf16>, v: Utf16) {
    FirstOccurrences(norm, so + more) == FirstOccurrences(norm, so) && Contains(norm, so + more, v)
  }

  lemma StuttersOn(norm: Utf16 -> Utf16, so: seq<Utf16>, more: seq<Utf16>, v: Utf16)
    requires Stutters(norm, so, more, v)
    ensures Stutters(norm, so, more + [v], v)
  {
    assert so + (more + [v]) == (so + more) + [v];
    RepeatChangesNothing(norm, so + more, v);
    ContainsAppend(norm, so + more, v, v);
  }

  lemma EvidenceValue(r: ChunkSummary, field: ClaimField, item: nat, v: Utf16, n: nat)
    requires n < |r.summary.claimEvidence|
    ensures
      var e := r.summary.claimEvidence[n];
      Values(EvidenceEntries(r, field, item, v, n + 1), field) ==
        Values(EvidenceEntries(r, field, item, v, n), field) + if e.field == field && e.item == item then [v] else []
  {
    var e := r.summary.claimEvidence[n];
    var before := EvidenceEntries(r, field, item, v, n);
    if e.field == field && e.item == item {
      var one := [Entry(field, v, Allowed(r, e.segments))];
      assert EvidenceEntries(r, field, item, v, n + 1) == before + one;
      ValuesAppend(before, one, field);
      assert Values(one[..0], field) == [];
    } else {
      assert EvidenceEntries(r, field, item, v, n + 1) == before;
    }
  }

  lemma {:induction false} EvidenceValues(
    norm: Utf16 -> Utf16, so: seq<Utf16>, r: ChunkSummary, field: ClaimField, item: nat, v: Utf16, n: nat)
    requires n <= |r.summary.claimEvidence| && Contains(norm, so, v)
    ensures Stutters(norm, so, Values(EvidenceEntries(r, field, item, v, n), field), v)
  {
    if n == 0 {
      assert so + [] == so;
    } else {
      EvidenceValues(norm, so, r, field, item, v, n - 1);
      EvidenceStutters(norm, so, r, field, item, v, n - 1);
    }
  }

  lemma EvidenceStutters(
    norm: Utf16 -> Utf16, so: seq<Utf16>, r: ChunkSummary, field: ClaimField, item: nat, v: Utf16, n: nat)
    requires n < |r.summary.claimEvidence|
    requires Stutters(norm, so, Values(EvidenceEntries(r, field, item, v, n), field), v)
    ensures Stutters(norm, so, Values(EvidenceEntries(r, field, item, v, n + 1), field), v)
  {
    var before := Values(EvidenceEntries(r, field, item, v, n), field);
    EvidenceValue(r, field, item, v, n);
    StuttersOn(norm, so, before, v);
    assert before + [] == before;
  }

  lemma {:induction false} OtherEvidence(r: ChunkSummary, field: ClaimField, item: nat, v: Utf16, n: nat, g: ClaimField)
    requires n <= |r.summary.claimEvidence| && g != field
    ensures Values(EvidenceEntries(r, field, item, v, n), g) == []
  {
    if n > 0 {
      OtherEvidence(r, field, item, v, n - 1, g);
      var before := EvidenceEntries(r, field, item, v, n - 1);
      var e := r.summary.claimEvidence[n - 1];
      var last := if e.field == field && e.item == item then [Entry(field, v, Allowed(r, e.segments))] else [];
      ValuesAppend(before, last, g);
    }
  }

  lemma NoItemsYet(r: ChunkSummary, field: ClaimField)
    requires field in r.summary.lists
    ensures ItemEntries(r, field, 0) == []
  {
  }

  lemma {:induction false} OtherItems(r: ChunkSummary, field: ClaimField, n: nat, g: ClaimField)
    requires field in r.summary.lists && n <= |r.summary.lists[field]| && g != field
    ensures Values(ItemEntries(r, field, n), g) == []
  {
    if n == 0 {
      NoItemsYet(r, field);
    } else {
      OtherItems(r, field, n - 1, g);
      OtherItem(r, field, n - 1, g);
    }
  }

  lemma OtherItem(r: ChunkSummary, field: ClaimField, n: nat, g: ClaimField)
    requires field in r.summary.lists && n < |r.summary.lists[field]| && g != field
    ensures Values(ItemEntries(r, field, n + 1), g) == Values(ItemEntries(r, field, n), g)
  {
    var value := r.summary.lists[field][n];
    var one := [Entry(field, value, [])];
    OtherEvidence(r, field, n, value, |r.summary.claimEvidence|, g);
    ValuesAppend(ItemEntries(r, field, n) + one, AllEvidence(r, field, n, value), g);
    ValuesAppend(ItemEntries(r, field, n), one, g);
    assert Values(one[..0], g) == [];
  }

  /** The values of `n` items and their evidence. */
  lemma ItemsSplit(r: ChunkSummary, field: ClaimField, n: nat)
    requires field in r.summary.lists && n < |r.summary.lists[field]|
    ensures
      var value := r.summary.lists[field][n];
      Values(ItemEntries(r, field, n + 1), field)
        == Values(ItemEntries(r, field, n), field) + [value] + Values(AllEvidence(r, field, n, value), field)
  {
    var value := r.summary.lists[field][n];
    var one := [Entry(field, value, [])];
    ValuesAppend(ItemEntries(r, field, n) + one, AllEvidence(r, field, n, value), field);
    ValuesAppend(ItemEntries(r, field, n), one, field);
    assert Values(one[..0], field) == [] && Values(one, field) == [value];
  }

  /** One more item adds its value, its evidence nothing new. */
  lemma ItemValue(norm: Utf16 -> Utf16, so: seq<Utf16>, r: ChunkSummary, field: ClaimField, n: nat)
    requires field in r.summary.lists && n < |r.summary.lists[field]|
    ensures FirstOccurrences(norm, so + Values(ItemEntries(r, field, n + 1), field))
      == FirstOccurrences(norm, so + Values(ItemEntries(r, field, n), field) + [r.summary.lists[field][n]])
  {
    var value := r.summary.lists[field][n];
    var before := so + Values(ItemEntries(r, field, n), field);
    var evidence := Values(AllEvidence(r, field, n, value), field);
    ItemsSplit(r, field, n);
    assert so + Values(ItemEntries(r, field, n + 1), field) == (before + [value]) + evidence;
    ContainsAppend(norm, before, value, value);
    EvidenceValues(norm, before + [value], r, field, n, value, |r.summary.claimEvidence|);
  }

  lemma ItemValuesStep(norm: Utf16 -> Utf16, so: seq<Utf16>, r: ChunkSummary, field: ClaimField, n: nat)
    requires field in r.summary.lists && n < |r.summary.lists[field]|
    requires FirstOccurrences(norm, so + Values(ItemEntries(r, field, n), field))
      == FirstOccurrences(norm, so + r.summary.lists[field][..n])
    ensures FirstOccurrences(norm, so + Values(ItemEntries(r, field, n + 1), field))
      == FirstOccurrences(norm, so + r.summary.lists[field][..n + 1])
  {
    ItemValue(norm, so, r, field, n);
    SameOccurrences(norm, so + Values(ItemEntries(r, field, n), field), so + r.summary.lists[field][..n],
                    [r.summary.lists[field][n]]);
    OneMoreTaken(so, r.summary.lists[field], n);
  }

  lemma OneMoreTaken(so: seq<Utf16>, items: seq<Utf16>, n: nat)
    requires n < |items|
    ensures so + items[..n + 1] == so + items[..n] + [items[n]]
  {
  }

  lemma {:induction false} ItemValues(norm: Utf16 -> Utf16, so: seq<Utf16>, r: ChunkSummary, field: ClaimField, n: nat)
    requires field in r.summary.lists && n <= |r.summary.lists[field]|
    ensures FirstOccurrences(norm, so + Values(ItemEntries(r, field, n), field))
      == FirstOccurrences(norm, so + r.summary.lists[field][..n])
  {
    if n == 0 {
      assert r.summary.lists[field][..0] == [];
    } else {
      ItemValues(norm, so, r, field, n - 1);
      ItemValuesStep(norm, so, r, field, n - 1);
    }
  }

  /** What the first `k` list fields contribute to the one at position `at`. */
  ghost predicate Contributes(r: ChunkSummary, k: nat, at: nat)
    requires HasLists(r.summary) && k <= |LIST_FIELDS| && at < |LIST_FIELDS|
  {
    var f := LIST_FIELDS[at];
    Values(FieldEntries(r, k), f) == if at < k then Values(ItemEntries(r, f, |r.summary.lists[f]|), f) else []
  }

  lemma {:induction false} FieldValues(r: ChunkSummary, k: nat, at: nat)
    requires HasLists(r.summary) && k <= |LIST_FIELDS| && at < |LIST_FIELDS|
    ensures Contributes(r, k, at)
  {
    if k > 0 {
      FieldValues(r, k - 1, at);
      FieldContributes(r, k - 1, at);
    }
  }

  lemma FieldContributes(r: ChunkSummary, k: nat, at: nat)
    requires HasLists(r.summary) && k < |LIST_FIELDS| && at < |LIST_FIELDS| && Contributes(r, k, at)
    ensures Contributes(r, k + 1, at)
  {
    FieldValue(r, k, LIST_FIELDS[at]);
    FieldOnce(k, at);
  }

  lemma FieldValue(r: ChunkSummary, k: nat, f: ClaimField)
    requires HasLists(r.summary) && k < |LIST_FIELDS| && f in LIST_FIELDS
    ensures Values(FieldEntries(r, k + 1), f) ==
      if f == LIST_FIELDS[k] then Values(FieldEntries(r, k), f) + Values(ItemEntries(r, f, |r.summary.lists[f]|), f)
      else Values(FieldEntries(r, k), f)
  {
    var field := LIST_FIELDS[k];
    assert field in LIST_FIELDS;
    ValuesAppend(FieldEntries(r, k), ItemEntries(r, field, |r.summary.lists[field]|), f);
    if f != field { OtherItems(r, field, |r.summary.lists[field]|, f); }
  }

  lemma FieldOnce(j: nat, k: nat)
    requires j < |LIST_FIELDS| && k < |LIST_FIELDS|
    ensures LIST_FIELDS[j] == LIST_FIELDS[k] <==> j == k
  {
    ListFieldsDistinct();
  }

  lemma {:induction false} EntryValues(norm: Utf16 -> Utf16, results: seq<ChunkSummary>, f: ClaimField)
    requires AllHaveLists(results) && f in LIST_FIELDS
    ensures FirstOccurrences(norm, Values(Entries(results), f)) == FirstOccurrences(norm, AllItems(results, f))
  {
    if results != [] {
      var front, r := results[..|results| - 1], results[|results| - 1];
      EntryValues(norm, front, f);
      ChunkValues(norm, Values(Entries(front), f), r, f);
      ValuesAppend(Entries(front), ChunkEntries(r), f);
      SameOccurrences(norm, Values(Entries(front), f), AllItems(front, f), r.summary.lists[f]);
    }
  }

  lemma ChunkValues(norm: Utf16 -> Utf16, so: seq<Utf16>, r: ChunkSummary, f: ClaimField)
    requires HasLists(r.summary) && f in LIST_FIELDS
    ensures FirstOccurrences(norm, so + Values(ChunkEntries(r), f)) == FirstOccurrences(norm, so + r.summary.lists[f])
  {
    OwnValues(r, f);
    ItemValues(norm, so, r, f, |r.summary.lists[f]|);
    assert r.summary.lists[f][..|r.summary.lists[f]|] == r.summary.lists[f];
  }

  lemma OwnValues(r: ChunkSummary, f: ClaimField)
    requires HasLists(r.summary) && f in LIST_FIELDS
    ensures Values(ChunkEntries(r), f) == Values(ItemEntries(r, f, |r.summary.lists[f]|), f)
  {
    ListFieldsDistinct();
    OtherEvidence(r, Summary, 0, [], |r.summary.claimEvidence|, f);
    assert Values(SummaryEntries(r), f) == [];
    ValuesAppend(SummaryEntries(r), FieldEntries(r, |LIST_FIELDS|), f);
    var at :| 0 <= at < |LIST_FIELDS| && LIST_FIELDS[at] == f;
    FieldValues(r, |LIST_FIELDS|, at);
    assert Contributes(r, |LIST_FIELDS|, at);
  }

  /** Every merged list is the first occurrences of the chunks' items, in chunk order, and
      holds no item twice. */
  lemma MergedLists(norm: Utf16 -> Utf16, results: seq<ChunkSummary>, f: ClaimField)
    requires AllHaveLists(results) && f in LIST_FIELDS
    ensures Merged(norm, results).lists[f] == FirstOccurrences(norm, AllItems(results, f))
    ensures AllDifferent(norm, Merged(norm, results).lists[f])
  {
    MergedSound(norm, results);
    assert ListIs(norm, Entries(results), Merged(norm, results), f);
    EntryValues(norm, results, f);
  }

  // ------------------------------------------------------------- nothing cited is lost

  ghost predicate Carries(e: Entry, field: ClaimField, value: Utf16, x: nat) {
    && e.field == field && e.value == value && NoDuplicates(e.cited) && e.cited != []
    && (x in e.cited || |e.cited| == MAX_ITEMS)
  }

  lemma {:induction false} CitationEntry(
    r: ChunkSummary, field: ClaimField, item: nat, value: Utf16, n: nat, at: nat, x: nat) returns (e: Entry)
    requires at < n <= |r.summary.claimEvidence| && x in r.segmentIndexes
    requires var given := r.summary.claimEvidence[at]; given.field == field && given.item == item && x in given.segments
    ensures e in EvidenceEntries(r, field, item, value, n) && Carries(e, field, value, x)
  {
    if at == n - 1 {
      var given := r.summary.claimEvidence[at];
      ShownFacts(r.segmentIndexes, given.segments);
      BoundedFacts(Shown(r.segmentIndexes, given.segments));
      assert x in Shown(r.segmentIndexes, given.segments);
      e := Entry(field, value, Allowed(r, given.segments));
    } else {
      e := CitationEntry(r, field, item, value, n - 1, at, x);
    }
  }

  lemma {:induction false} AmongItems(r: ChunkSummary, field: ClaimField, n: nat, i: nat, e: Entry)
    requires field in r.summary.lists && i < n <= |r.summary.lists[field]|
    requires e in AllEvidence(r, field, i, r.summary.lists[field][i])
    ensures e in ItemEntries(r, field, n)
  {
    if i < n - 1 { AmongItems(r, field, n - 1, i, e); }
  }

  lemma {:induction false} AmongFields(r: ChunkSummary, k: nat, at: nat, e: Entry)
    requires HasLists(r.summary) && at < k <= |LIST_FIELDS|
    requires e in ItemEntries(r, LIST_FIELDS[at], |r.summary.lists[LIST_FIELDS[at]]|)
    ensures e in FieldEntries(r, k)
  {
    if at < k - 1 { AmongFields(r, k - 1, at, e); }
  }

  lemma {:induction false} AmongEntries(results: seq<ChunkSummary>, r: ChunkSummary, e: Entry)
    requires AllHaveLists(results) && r in results && HasLists(r.summary) && e in ChunkEntries(r)
    ensures e in Entries(results)
  {
    var front := results[..|results| - 1];
    assert results == front + [results[|results| - 1]];
    if r in front { AmongEntries(front, r, e); }
  }

  lemma FindCitation(results: seq<ChunkSummary>, r: ChunkSummary, field: ClaimField, i: nat, x: nat) returns (e: Entry)
    requires AllHaveLists(results) && r in results && HasLists(r.summary) && field in LIST_FIELDS
    requires i < |r.summary.lists[field]| && Cites(r, field, i, x)
    ensures e in Entries(results) && Carries(e, field, r.summary.lists[field][i], x)
  {
    var given :| given in r.summary.claimEvidence && given.field == field && given.item == i && x in given.segments;
    var at :| 0 <= at < |r.summary.claimEvidence| && r.summary.claimEvidence[at] == given;
    e := CitationEntry(r, field, i, r.summary.lists[field][i], |r.summary.claimEvidence|, at, x);
    AmongItems(r, field, |r.summary.lists[field]|, i, e);
    var k :| 0 <= k < |LIST_FIELDS| && LIST_FIELDS[k] == field;
    AmongFields(r, |LIST_FIELDS|, k, e);
    AmongEntries(results, r, e);
  }

  /** The claim an entry went to. */
  lemma ClaimOfEntry(norm: Utf16 -> Utf16, entries: seq<Entry>, s: State, e: Entry) returns (key: Key)
    requires StateOf(norm, entries, s) && e in entries && e.cited != [] && e.field in s.lists && e.field != Summary
    ensures key.0 == e.field && Names(norm, s, e, key) && Holds(s, key, e.cited) && NoDuplicates(s.claims[key])
  {
    EntryListed(norm, entries, s, e);
    var k: nat :| k < |s.lists[e.field]| && norm(s.lists[e.field][k]) == norm(e.value);
    key := (e.field, k);
    assert Names(norm, s, e, key) && Holds(s, key, e.cited);
    assert WellFormed(s, key);
  }

  /** A segment a chunk was shown and cites for one of its items is among the segments of
      the merged item's claim, unless that claim already has twenty. */
  lemma CitationKept(
    norm: Utf16 -> Utf16, results: seq<ChunkSummary>, r: ChunkSummary, field: ClaimField, i: nat, x: nat)
    returns (key: Key)
    requires AllHaveLists(results) && r in results && HasLists(r.summary) && field in LIST_FIELDS
    requires i < |r.summary.lists[field]| && Cites(r, field, i, x)
    ensures
      var s := Merged(norm, results);
      && key.0 == field && key.1 < |s.lists[field]| && norm(s.lists[field][key.1]) == norm(r.summary.lists[field][i])
      && key in s.claims && (x in s.claims[key] || |s.claims[key]| >= MAX_ITEMS)
  {
    var s := Merged(norm, results);
    MergedSound(norm, results);
    ListFieldsDistinct();
    var e := FindCitation(results, r, field, i, x);
    key := ClaimOfEntry(norm, Entries(results), s, e);
    if x !in s.claims[key] && |s.claims[key]| != MAX_ITEMS { FewerThanHolder(e.cited, s.claims[key]); }
  }

  lemma FindSummaryCitation(results: seq<ChunkSummary>, r: ChunkSummary, x: nat) returns (e: Entry)
    requires AllHaveLists(results) && r in results && HasLists(r.summary)
    requires Trim(r.summary.summary) != [] && Cites(r, Summary, 0, x)
    ensures e in Entries(results) && Carries(e, Summary, [], x)
  {
    var given :| given in r.summary.claimEvidence && given.field == Summary && given.item == 0 && x in given.segments;
    var at :| 0 <= at < |r.summary.claimEvidence| && r.summary.claimEvidence[at] == given;
    e := CitationEntry(r, Summary, 0, [], |r.summary.claimEvidence|, at, x);
    AmongEntries(results, r, e);
  }

  /** Of the segments cited for the text of a chunk's summary, the claim about the joined
      text keeps each one, unless it already has twenty. */
  lemma SummaryCitationKept(norm: Utf16 -> Utf16, results: seq<ChunkSummary>, r: ChunkSummary, x: nat)
    requires AllHaveLists(results) && r in results && HasLists(r.summary)
    requires Trim(r.summary.summary) != [] && Cites(r, Summary, 0, x)
    ensures
      var s := Merged(norm, results);
      (Summary, 0) in s.claims && (x in s.claims[(Summary, 0)] || |s.claims[(Summary, 0)]| >= MAX_ITEMS)
  {
    var s, key := Merged(norm, results), (Summary, 0);
    MergedSound(norm, results);
    var e := FindSummaryCitation(results, r, x);
    assert Names(norm, s, e, key) && Holds(s, key, e.cited);
    assert WellFormed(s, key);
    if x !in s.claims[key] && |s.claims[key]| != MAX_ITEMS { FewerThanHolder(e.cited, s.claims[key]); }
  }
}

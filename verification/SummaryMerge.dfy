/** Merging the summaries of a transcript's chunks (src/llm/summary-plan.ts:208-352):
    which items survive, where their claims point and what backs each claim. */
module SummaryMerge {

  import opened Common
  import opened SummarySchema

  /** A chunk's summary with the transcript segments the chunk showed. */
  datatype ChunkSummary = ChunkSummary(segmentIndexes: seq<nat>, summary: StructuredSummary)

  type Key = (ClaimField, nat)

  // ------------------------------------------------------- what the chunks contain

  ghost predicate AllHaveLists(results: seq<ChunkSummary>) {
    forall r :: 0 <= r < |results| ==> HasLists(results[r].summary)
  }

  /** All items of a list field, chunk after chunk. */
  function AllItems(results: seq<ChunkSummary>, field: ClaimField): seq<Utf16>
    requires AllHaveLists(results) && field in LIST_FIELDS
  {
    if results == [] then []
    else AllItems(results[..|results| - 1], field) + results[|results| - 1].summary.lists[field]
  }

  predicate Contains(norm: Utf16 -> Utf16, items: seq<Utf16>, value: Utf16) {
    exists k :: 0 <= k < |items| && norm(items[k]) == norm(value)
  }

  /** Items whose normalized form has not occurred before, in order. */
  function FirstOccurrences(norm: Utf16 -> Utf16, items: seq<Utf16>): seq<Utf16> {
    if items == [] then []
    else
      var front := FirstOccurrences(norm, items[..|items| - 1]);
      if Contains(norm, front, items[|items| - 1]) then front else front + [items[|items| - 1]]
  }

  function SummaryParts(results: seq<ChunkSummary>): seq<Utf16> {
    if results == [] then []
    else
      var part := Trim(results[|results| - 1].summary.summary);
      SummaryParts(results[..|results| - 1]) + if part == [] then [] else [part]
  }

  /** The model cited `segment` for item `item` of a field, and had been shown it. */
  ghost predicate Cites(r: ChunkSummary, field: ClaimField, item: nat, segment: nat) {
    && segment in r.segmentIndexes
    && exists e :: e in r.summary.claimEvidence && e.field == field && e.item == item && segment in e.segments
  }

  /** Chunk `r` holds an item like `value` and cites `segment` for it. */
  ghost predicate BackedBy(norm: Utf16 -> Utf16, r: ChunkSummary, field: ClaimField, value: Utf16, segment: nat) {
    if field == Summary then Trim(r.summary.summary) != [] && Cites(r, Summary, 0, segment)
    else
      && field in r.summary.lists
      && exists i: nat ::
           i < |r.summary.lists[field]| && norm(r.summary.lists[field][i]) == norm(value) && Cites(r, field, i, segment)
  }

  ghost predicate Backed(
    norm: Utf16 -> Utf16, results: seq<ChunkSummary>, field: ClaimField, value: Utf16, segment: nat)
  {
    exists r :: r in results && BackedBy(norm, r, field, value, segment)
  }

  // ------------------------------------------------------------------ list lemmas

  ghost predicate AllDifferent(norm: Utf16 -> Utf16, items: seq<Utf16>) {
    forall j, k :: 0 <= j < k < |items| ==> norm(items[j]) != norm(items[k])
  }

  lemma {:induction false} FirstOccurrencesFacts(norm: Utf16 -> Utf16, items: seq<Utf16>)
    ensures AllDifferent(norm, FirstOccurrences(norm, items))
    ensures forall v :: Contains(norm, items, v) <==> Contains(norm, FirstOccurrences(norm, items), v)
  {
    if items != [] {
      var front, last := items[..|items| - 1], items[|items| - 1];
      FirstOccurrencesFacts(norm, front);
      var kept := FirstOccurrences(norm, front);
      assert items == front + [last];
      forall v
        ensures Contains(norm, items, v) <==> Contains(norm, FirstOccurrences(norm, items), v)
      {
        ContainsAppend(norm, front, last, v);
        ContainsAppend(norm, kept, last, v);
      }
    }
  }

  lemma ContainsAppend(norm: Utf16 -> Utf16, items: seq<Utf16>, last: Utf16, v: Utf16)
    ensures Contains(norm, items + [last], v) <==> Contains(norm, items, v) || norm(last) == norm(v)
  {
    if Contains(norm, items, v) {
      var k :| 0 <= k < |items| && norm(items[k]) == norm(v);
      assert norm((items + [last])[k]) == norm(v);
    }
    if norm(last) == norm(v) { assert norm((items + [last])[|items|]) == norm(v); }
  }

  lemma FirstOccurrencesAppend(norm: Utf16 -> Utf16, items: seq<Utf16>, v: Utf16)
    ensures
      var kept := FirstOccurrences(norm, items);
      FirstOccurrences(norm, items + [v]) == if Contains(norm, kept, v) then kept else kept + [v]
  {
    assert (items + [v])[..|items|] == items;
  }

  // --------------------------------------------------------------------- the state

  /** One step of the merge: a value met in a field, with the segments a claim about it
      may keep. */
  datatype Entry = Entry(field: ClaimField, value: Utf16, cited: seq<nat>)

  datatype State = State(
    lists: map<ClaimField, seq<Utf16>>, itemIndexes: map<(ClaimField, Utf16), nat>,
    claims: map<Key, seq<nat>>, order: seq<Key>)

  const EMPTY_STATE := State(map f | f in LIST_FIELDS :: [], map[], map[], [])

  function Values(entries: seq<Entry>, field: ClaimField): seq<Utf16> {
    if entries == [] then []
    else
      var last := entries[|entries| - 1];
      Values(entries[..|entries| - 1], field) + if last.field == field then [last.value] else []
  }

  ghost predicate ListIs(norm: Utf16 -> Utf16, entries: seq<Entry>, s: State, f: ClaimField)
    requires f in s.lists
  {
    s.lists[f] == FirstOccurrences(norm, Values(entries, f)) && AllDifferent(norm, s.lists[f])
  }

  ghost predicate ListsOf(norm: Utf16 -> Utf16, entries: seq<Entry>, s: State) {
    && s.lists.Keys == (set f | f in LIST_FIELDS)
    && (forall f {:trigger ListIs(norm, entries, s, f)} :: f in s.lists ==> ListIs(norm, entries, s, f))
  }

  /** The index entry `k` leads to an item with that normalized form. */
  ghost predicate LeadsToItem(norm: Utf16 -> Utf16, s: State, k: (ClaimField, Utf16))
    requires k in s.itemIndexes
  {
    k.0 in s.lists && s.itemIndexes[k] < |s.lists[k.0]| && norm(s.lists[k.0][s.itemIndexes[k]]) == k.1
  }

  ghost predicate IsIndexed(norm: Utf16 -> Utf16, s: State, f: ClaimField, i: nat)
    requires f in s.lists && i < |s.lists[f]|
  {
    (f, norm(s.lists[f][i])) in s.itemIndexes
  }

  /** The index is the position of each list item under its normalized form. */
  ghost predicate IndexesOf(norm: Utf16 -> Utf16, s: State) {
    && (forall k :: k in s.itemIndexes ==> LeadsToItem(norm, s, k))
    && (forall f, i: nat :: f in s.lists && i < |s.lists[f]| ==> IsIndexed(norm, s, f, i))
  }

  ghost predicate Names(norm: Utf16 -> Utf16, s: State, e: Entry, key: Key) {
    && key.0 == e.field
    && if key.0 == Summary then key.1 == 0
       else key.0 in s.lists && key.1 < |s.lists[key.0]| && norm(s.lists[key.0][key.1]) == norm(e.value)
  }

  /** Some entry about the claim's own item cited the segment. */
  ghost predicate Supported(norm: Utf16 -> Utf16, entries: seq<Entry>, s: State, key: Key, segment: nat) {
    exists e :: e in entries && Names(norm, s, e, key) && segment in e.cited
  }

  ghost predicate Claimable(s: State, key: Key) {
    if key.0 == Summary then key.1 == 0 else key.0 in s.lists && key.1 < |s.lists[key.0]|
  }

  ghost predicate WellFormed(s: State, key: Key)
    requires key in s.claims
  {
    Claimable(s, key) && s.claims[key] != [] && |s.claims[key]| <= MAX_ITEMS && NoDuplicates(s.claims[key])
  }

  ghost predicate ClaimsOf(norm: Utf16 -> Utf16, entries: seq<Entry>, s: State) {
    && (forall key :: key in s.claims ==> WellFormed(s, key))
    && (forall key, x {:trigger Supported(norm, entries, s, key, x)} ::
          key in s.claims && x in s.claims[key] ==> Supported(norm, entries, s, key, x))
    && NoDuplicates(s.order) && (forall key :: key in s.order <==> key in s.claims)
  }

  /** Nothing cited is missing, unless the claim is full. */
  ghost predicate Complete(norm: Utf16 -> Utf16, entries: seq<Entry>, s: State) {
    forall e, key {:trigger Holds(s, key, e.cited)} ::
      e in entries && Names(norm, s, e, key) && e.cited != [] ==> Holds(s, key, e.cited)
  }

  ghost predicate Holds(s: State, key: Key, cited: seq<nat>) {
    key in s.claims && (|s.claims[key]| == MAX_ITEMS || forall x :: x in cited ==> x in s.claims[key])
  }

  ghost predicate StateOf(norm: Utf16 -> Utf16, entries: seq<Entry>, s: State) {
    && ListsOf(norm, entries, s) && IndexesOf(norm, s) && ClaimsOf(norm, entries, s) && Complete(norm, entries, s)
  }

  function AddClaim(s: State, key: Key, segments: seq<nat>): State {
    if segments == [] then s
    else
      s.(claims := s.claims[key := Bounded(Existing(s, key) + segments)],
         order := if key in s.claims then s.order else s.order + [key])
  }

  lemma ListsAppend(norm: Utf16 -> Utf16, entries: seq<Entry>, s: State, e: Entry, r: State)
    requires ListsOf(norm, entries, s) && r.lists.Keys == s.lists.Keys
    requires forall f :: f in s.lists && f != e.field ==> r.lists[f] == s.lists[f]
    requires e.field in s.lists ==>
      r.lists[e.field] ==
        if Contains(norm, s.lists[e.field], e.value) then s.lists[e.field] else s.lists[e.field] + [e.value]
    ensures ListsOf(norm, entries + [e], r)
  {
    assert (entries + [e])[..|entries|] == entries;
    forall f | f in r.lists
      ensures ListIs(norm, entries + [e], r, f)
    {
      assert ListIs(norm, entries, s, f);
      if f == e.field {
        FirstOccurrencesAppend(norm, Values(entries, f), e.value);
      } else {
        assert Values(entries + [e], f) == Values(entries, f);
      }
      FirstOccurrencesFacts(norm, Values(entries + [e], f));
    }
  }

  /** Names given before still name the same claims, and a new entry only its own. */
  lemma NamesStay(norm: Utf16 -> Utf16, s: State, r: State, e: Entry, key: Key)
    requires forall f :: f in s.lists ==> f in r.lists && s.lists[f] <= r.lists[f]
    requires Claimable(s, key)
    ensures Names(norm, r, e, key) <==> Names(norm, s, e, key)
  {
  }

  function Existing(s: State, key: Key): seq<nat> { if key in s.claims then s.claims[key] else [] }

  lemma SupportStays(norm: Utf16 -> Utf16, entries: seq<Entry>, s: State, e: Entry, r: State, key: Key, x: nat)
    requires Supported(norm, entries, s, key, x) && r.lists == s.lists
    ensures Supported(norm, entries + [e], r, key, x)
  {
    var d :| d in entries && Names(norm, s, d, key) && x in d.cited;
    assert d in entries + [e] && Names(norm, r, d, key);
  }

  lemma AddedSupport(norm: Utf16 -> Utf16, entries: seq<Entry>, s: State, e: Entry, key: Key, x: nat)
    requires ClaimsOf(norm, entries, s) && Names(norm, s, e, key) && x in Bounded(Existing(s, key) + e.cited)
    ensures Supported(norm, entries + [e], AddClaim(s, key, e.cited), key, x)
  {
    BoundedFacts(Existing(s, key) + e.cited);
    if x in e.cited {
      assert e in entries + [e] && Names(norm, AddClaim(s, key, e.cited), e, key);
    } else {
      SupportStays(norm, entries, s, e, AddClaim(s, key, e.cited), key, x);
    }
  }

  lemma HoldsStays(s: State, key: Key, cited: seq<nat>, e: Entry)
    requires Holds(s, key, cited) && (key in s.claims ==> NoDuplicates(s.claims[key])) && e.cited != []
    ensures Holds(AddClaim(s, key, e.cited), key, cited)
  {
    var all := Existing(s, key) + e.cited;
    BoundedFacts(all);
    if |s.claims[key]| == MAX_ITEMS { BoundedStaysFull(s.claims[key], e.cited); }
  }

  lemma ClaimAppend(norm: Utf16 -> Utf16, entries: seq<Entry>, s: State, e: Entry, key: Key)
    requires ListsOf(norm, entries, s) && ClaimsOf(norm, entries, s)
    requires Names(norm, s, e, key) && Claimable(s, key)
    ensures ClaimsOf(norm, entries + [e], AddClaim(s, key, e.cited))
  {
    var r := AddClaim(s, key, e.cited);
    BoundedFacts(Existing(s, key) + e.cited);
    forall k, x | k in r.claims && x in r.claims[k]
      ensures Supported(norm, entries + [e], r, k, x)
    {
      if k == key && e.cited != [] {
        AddedSupport(norm, entries, s, e, key, x);
      } else {
        SupportStays(norm, entries, s, e, r, k, x);
      }
    }
  }

  lemma CompleteAppend(norm: Utf16 -> Utf16, entries: seq<Entry>, s: State, e: Entry, key: Key)
    requires ListsOf(norm, entries, s) && ClaimsOf(norm, entries, s) && Complete(norm, entries, s)
    requires Names(norm, s, e, key)
    ensures Complete(norm, entries + [e], AddClaim(s, key, e.cited))
  {
    var r := AddClaim(s, key, e.cited);
    BoundedFacts(Existing(s, key) + e.cited);
    forall d, k | d in entries + [e] && Names(norm, r, d, k) && d.cited != []
      ensures Holds(r, k, d.cited)
    {
      assert Names(norm, s, d, k);
      if d in entries {
        assert Holds(s, k, d.cited);
        if k == key && e.cited != [] { HoldsStays(s, key, d.cited, e); }
      } else {
        SameKey(norm, entries, s, e, key, k);
      }
    }
  }

  /** An entry names one claim at most. */
  lemma SameKey(norm: Utf16 -> Utf16, entries: seq<Entry>, s: State, e: Entry, a: Key, b: Key)
    requires ListsOf(norm, entries, s) && Names(norm, s, e, a)
    ensures Names(norm, s, e, b) ==> a == b
  {
    if a.0 != Summary { assert ListIs(norm, entries, s, a.0); }
  }

  // ------------------------------------------------------------ entries of a chunk

  function Shown(indexes: seq<nat>, segments: seq<nat>): seq<nat> {
    if segments == [] then []
    else
      Shown(indexes, segments[..|segments| - 1]) +
      if segments[|segments| - 1] in indexes then [segments[|segments| - 1]] else []
  }

  /** Cited segments the chunk did show, once each, at most twenty. */
  function Allowed(r: ChunkSummary, segments: seq<nat>): seq<nat> { Bounded(Shown(r.segmentIndexes, segments)) }

  /** Merge steps for the first `n` evidence entries of one item. */
  function EvidenceEntries(r: ChunkSummary, field: ClaimField, item: nat, value: Utf16, n: nat): seq<Entry>
    requires n <= |r.summary.claimEvidence|
  {
    if n == 0 then []
    else
      var e := r.summary.claimEvidence[n - 1];
      EvidenceEntries(r, field, item, value, n - 1) +
      if e.field == field && e.item == item then [Entry(field, value, Allowed(r, e.segments))] else []
  }

  function AllEvidence(r: ChunkSummary, field: ClaimField, item: nat, value: Utf16): seq<Entry> {
    EvidenceEntries(r, field, item, value, |r.summary.claimEvidence|)
  }

  /** Merge steps for the first `n` items of a list field. */
  function ItemEntries(r: ChunkSummary, field: ClaimField, n: nat): seq<Entry>
    requires field in r.summary.lists && n <= |r.summary.lists[field]|
  {
    if n == 0 then []
    else
      var value := r.summary.lists[field][n - 1];
      ItemEntries(r, field, n - 1) + [Entry(field, value, [])] + AllEvidence(r, field, n - 1, value)
  }

  function FieldEntries(r: ChunkSummary, k: nat): seq<Entry>
    requires HasLists(r.summary) && k <= |LIST_FIELDS|
  {
    if k == 0 then []
    else
      var field := LIST_FIELDS[k - 1];
      FieldEntries(r, k - 1) + ItemEntries(r, field, |r.summary.lists[field]|)
  }

  function SummaryEntries(r: ChunkSummary): seq<Entry> {
    if Trim(r.summary.summary) == [] then [] else AllEvidence(r, Summary, 0, [])
  }

  function ChunkEntries(r: ChunkSummary): seq<Entry>
    requires HasLists(r.summary)
  {
    SummaryEntries(r) + FieldEntries(r, |LIST_FIELDS|)
  }

  function Entries(results: seq<ChunkSummary>): seq<Entry>
    requires AllHaveLists(results)
  {
    if results == [] then []
    else Entries(results[..|results| - 1]) + ChunkEntries(results[|results| - 1])
  }

  function Legacy(results: seq<ChunkSummary>): seq<nat> {
    if results == [] then []
    else
      var r := results[|results| - 1];
      Legacy(results[..|results| - 1]) + Shown(r.segmentIndexes, r.summary.evidence)
  }

  // --------------------------------------------------------------------- the merge

  /** The item's place in the merged list: where its like already is, else the end. */
  function Placed(norm: Utf16 -> Utf16, s: State, field: ClaimField, value: Utf16): (r: State)
    requires field in s.lists
    ensures r.lists.Keys == s.lists.Keys && (field, norm(value)) in r.itemIndexes
  {
    if (field, norm(value)) in s.itemIndexes then s
    else
      s.(lists := s.lists[field := s.lists[field] + [value]],
         itemIndexes := s.itemIndexes[(field, norm(value)) := |s.lists[field]|])
  }

  /** The claims one item brings with it. */
  function WithEvidence(r: ChunkSummary, field: ClaimField, item: nat, target: nat, n: nat, s: State): (t: State)
    requires n <= |r.summary.claimEvidence|
    ensures t.lists == s.lists && t.itemIndexes == s.itemIndexes
  {
    if n == 0 then s
    else
      var e := r.summary.claimEvidence[n - 1];
      var t := WithEvidence(r, field, item, target, n - 1, s);
      if e.field == field && e.item == item then AddClaim(t, (field, target), Allowed(r, e.segments)) else t
  }

  function WithItems(norm: Utf16 -> Utf16, r: ChunkSummary, field: ClaimField, n: nat, s: State): (t: State)
    requires field in r.summary.lists && n <= |r.summary.lists[field]| && field in s.lists
    ensures t.lists.Keys == s.lists.Keys
  {
    if n == 0 then s
    else
      var value := r.summary.lists[field][n - 1];
      var placed := Placed(norm, WithItems(norm, r, field, n - 1, s), field, value);
      WithEvidence(r, field, n - 1, placed.itemIndexes[(field, norm(value))], |r.summary.claimEvidence|, placed)
  }

  function WithFields(norm: Utf16 -> Utf16, r: ChunkSummary, k: nat, s: State): (t: State)
    requires HasLists(r.summary) && k <= |LIST_FIELDS| && forall f :: f in LIST_FIELDS ==> f in s.lists
    ensures t.lists.Keys == s.lists.Keys
  {
    if k == 0 then s
    else
      var field := LIST_FIELDS[k - 1];
      WithItems(norm, r, field, |r.summary.lists[field]|, WithFields(norm, r, k - 1, s))
  }

  function WithChunk(norm: Utf16 -> Utf16, r: ChunkSummary, s: State): (t: State)
    requires HasLists(r.summary) && forall f :: f in LIST_FIELDS ==> f in s.lists
    ensures t.lists.Keys == s.lists.Keys
  {
    WithFields(norm, r, |LIST_FIELDS|, WithSummary(r, s))
  }

  // ------------------------------------------------------------------ it is sound

  lemma PlaceKeeps(norm: Utf16 -> Utf16, entries: seq<Entry>, s: State, field: ClaimField, value: Utf16)
    requires StateOf(norm, entries, s) && field in s.lists && field != Summary
    ensures StateOf(norm, entries + [Entry(field, value, [])], Placed(norm, s, field, value))
    ensures
      var r := Placed(norm, s, field, value);
      Names(norm, r, Entry(field, value, []), (field, r.itemIndexes[(field, norm(value))]))
  {
    var r := Placed(norm, s, field, value);
    PlaceLists(norm, entries, s, field, value);
    PlaceIndexes(norm, s, field, value);
    PlaceGrows(norm, entries, s, field, value);
    PlaceClaims(norm, entries, s, Entry(field, value, []), r);
    PlaceComplete(norm, entries, s, Entry(field, value, []), r);
  }

  lemma PlaceGrows(norm: Utf16 -> Utf16, entries: seq<Entry>, s: State, field: ClaimField, value: Utf16)
    requires ListsOf(norm, entries, s) && field in s.lists
    requires ListsOf(norm, entries + [Entry(field, value, [])], Placed(norm, s, field, value))
    ensures Grown(norm, s, Placed(norm, s, field, value))
  {
    var r := Placed(norm, s, field, value);
    forall f | f in s.lists ensures s.lists[f] <= r.lists[f] && AllDifferent(norm, r.lists[f]) {
      assert ListIs(norm, entries + [Entry(field, value, [])], r, f);
    }
  }

  lemma PlaceLists(norm: Utf16 -> Utf16, entries: seq<Entry>, s: State, field: ClaimField, value: Utf16)
    requires ListsOf(norm, entries, s) && IndexesOf(norm, s) && field in s.lists
    ensures ListsOf(norm, entries + [Entry(field, value, [])], Placed(norm, s, field, value))
  {
    IndexIsContents(norm, s, field, value);
    ListsAppend(norm, entries, s, Entry(field, value, []), Placed(norm, s, field, value));
  }

  lemma IndexIsContents(norm: Utf16 -> Utf16, s: State, field: ClaimField, value: Utf16)
    requires IndexesOf(norm, s) && field in s.lists
    ensures (field, norm(value)) in s.itemIndexes <==> Contains(norm, s.lists[field], value)
  {
    var items := s.lists[field];
    if (field, norm(value)) in s.itemIndexes {
      assert LeadsToItem(norm, s, (field, norm(value)));
      assert norm(items[s.itemIndexes[(field, norm(value))]]) == norm(value);
    }
    forall k: nat | k < |items| && norm(items[k]) == norm(value)
      ensures (field, norm(value)) in s.itemIndexes
    {
      assert IsIndexed(norm, s, field, k);
    }
  }

  lemma PlaceIndexes(norm: Utf16 -> Utf16, s: State, field: ClaimField, value: Utf16)
    requires IndexesOf(norm, s) && field in s.lists && field != Summary
    ensures
      var r := Placed(norm, s, field, value);
      && IndexesOf(norm, r)
      && Names(norm, r, Entry(field, value, []), (field, r.itemIndexes[(field, norm(value))]))
  {
    var r := Placed(norm, s, field, value);
    forall k | k in r.itemIndexes ensures LeadsToItem(norm, r, k) {
      if k in s.itemIndexes { assert LeadsToItem(norm, s, k); }
    }
    forall f, i: nat | f in r.lists && i < |r.lists[f]| ensures IsIndexed(norm, r, f, i) {
      if i < |s.lists[f]| { assert IsIndexed(norm, s, f, i); }
    }
    assert LeadsToItem(norm, r, (field, norm(value)));
  }

  lemma {:induction false} ValueListed(entries: seq<Entry>, e: Entry)
    requires e in entries
    ensures e.value in Values(entries, e.field)
  {
    var front, last := entries[..|entries| - 1], entries[|entries| - 1];
    assert entries == front + [last];
    if e in front { ValueListed(front, e); }
  }

  lemma EntryListed(norm: Utf16 -> Utf16, entries: seq<Entry>, s: State, e: Entry)
    requires ListsOf(norm, entries, s) && e in entries && e.field in s.lists
    ensures Contains(norm, s.lists[e.field], e.value)
  {
    var values := Values(entries, e.field);
    assert ListIs(norm, entries, s, e.field);
    ValueListed(entries, e);
    var k :| 0 <= k < |values| && values[k] == e.value;
    assert Contains(norm, values, e.value);
    FirstOccurrencesFacts(norm, values);
  }

  /** Lists that only grew, and still have no item twice. */
  ghost predicate Grown(norm: Utf16 -> Utf16, s: State, r: State) {
    && r.claims == s.claims && r.order == s.order && r.lists.Keys == s.lists.Keys
    && forall f :: f in s.lists ==> s.lists[f] <= r.lists[f] && AllDifferent(norm, r.lists[f])
  }

  /** What an entry names after the growth it named before. */
  lemma NamedBefore(norm: Utf16 -> Utf16, entries: seq<Entry>, s: State, r: State, d: Entry, key: Key)
    requires ListsOf(norm, entries, s) && Grown(norm, s, r) && d in entries && Names(norm, r, d, key)
    ensures Names(norm, s, d, key)
  {
    if key.0 != Summary {
      EntryListed(norm, entries, s, d);
      var j :| 0 <= j < |s.lists[d.field]| && norm(s.lists[d.field][j]) == norm(d.value);
      assert norm(r.lists[d.field][j]) == norm(r.lists[d.field][key.1]);
    }
  }

  lemma PlaceComplete(norm: Utf16 -> Utf16, entries: seq<Entry>, s: State, e: Entry, r: State)
    requires ListsOf(norm, entries, s) && Complete(norm, entries, s) && Grown(norm, s, r) && e.cited == []
    ensures Complete(norm, entries + [e], r)
  {
    forall d, k | d in entries + [e] && Names(norm, r, d, k) && d.cited != []
      ensures Holds(r, k, d.cited)
    {
      NamedBefore(norm, entries, s, r, d, k);
      assert Holds(s, k, d.cited);
    }
  }

  lemma PlaceClaims(norm: Utf16 -> Utf16, entries: seq<Entry>, s: State, e: Entry, r: State)
    requires ClaimsOf(norm, entries, s) && Grown(norm, s, r)
    ensures ClaimsOf(norm, entries + [e], r)
  {
    forall k, x | k in r.claims && x in r.claims[k]
      ensures Supported(norm, entries + [e], r, k, x)
    {
      assert Supported(norm, entries, s, k, x);
      var d :| d in entries && Names(norm, s, d, k) && x in d.cited;
      NamesStay(norm, s, r, d, k);
      assert d in entries + [e];
    }
  }

  lemma ClaimLists(norm: Utf16 -> Utf16, entries: seq<Entry>, s: State, e: Entry, key: Key)
    requires ListsOf(norm, entries, s) && Names(norm, s, e, key)
    ensures ListsOf(norm, entries + [e], AddClaim(s, key, e.cited))
  {
    if key.0 != Summary {
      assert Contains(norm, s.lists[e.field], e.value) by {
        assert norm(s.lists[e.field][key.1]) == norm(e.value);
      }
    } else {
      ListFieldsDistinct();
    }
    ListsAppend(norm, entries, s, e, AddClaim(s, key, e.cited));
  }

  lemma IndexesSame(norm: Utf16 -> Utf16, s: State, r: State)
    requires IndexesOf(norm, s) && r.lists == s.lists && r.itemIndexes == s.itemIndexes
    ensures IndexesOf(norm, r)
  {
    forall k | k in r.itemIndexes ensures LeadsToItem(norm, r, k) { assert LeadsToItem(norm, s, k); }
    forall f, i: nat | f in r.lists && i < |r.lists[f]| ensures IsIndexed(norm, r, f, i) {
      assert IsIndexed(norm, s, f, i);
    }
  }

  lemma ClaimKeeps(norm: Utf16 -> Utf16, entries: seq<Entry>, s: State, e: Entry, key: Key)
    requires StateOf(norm, entries, s) && Names(norm, s, e, key)
    ensures StateOf(norm, entries + [e], AddClaim(s, key, e.cited))
  {
    ClaimLists(norm, entries, s, e, key);
    IndexesSame(norm, s, AddClaim(s, key, e.cited));
    ClaimAppend(norm, entries, s, e, key);
    CompleteAppend(norm, entries, s, e, key);
  }

  /** One more evidence entry of an item. */
  lemma EvidenceStep(
    norm: Utf16 -> Utf16, entries: seq<Entry>, s: State, r: ChunkSummary,
    field: ClaimField, item: nat, value: Utf16, target: nat, n: nat)
    requires n < |r.summary.claimEvidence| && Names(norm, s, Entry(field, value, []), (field, target))
    requires
      StateOf(norm, entries + EvidenceEntries(r, field, item, value, n), WithEvidence(r, field, item, target, n, s))
    ensures
      StateOf(norm, entries + EvidenceEntries(r, field, item, value, n + 1),
              WithEvidence(r, field, item, target, n + 1, s))
  {
    var so, t := entries + EvidenceEntries(r, field, item, value, n), WithEvidence(r, field, item, target, n, s);
    var e := r.summary.claimEvidence[n];
    if e.field == field && e.item == item {
      var entry := Entry(field, value, Allowed(r, e.segments));
      assert Names(norm, t, entry, (field, target));
      ClaimKeeps(norm, so, t, entry, (field, target));
      assert so + [entry] == entries + EvidenceEntries(r, field, item, value, n + 1);
    } else {
      assert EvidenceEntries(r, field, item, value, n + 1) == EvidenceEntries(r, field, item, value, n);
    }
  }

  lemma NoEvidence(
    norm: Utf16 -> Utf16, entries: seq<Entry>, s: State, r: ChunkSummary,
    field: ClaimField, item: nat, value: Utf16, target: nat)
    requires StateOf(norm, entries, s) && Names(norm, s, Entry(field, value, []), (field, target))
    ensures
      StateOf(norm, entries + EvidenceEntries(r, field, item, value, 0), WithEvidence(r, field, item, target, 0, s))
  {
    assert entries + [] == entries;
  }

  lemma {:induction false} EvidenceKeeps(
    norm: Utf16 -> Utf16, entries: seq<Entry>, s: State, r: ChunkSummary,
    field: ClaimField, item: nat, value: Utf16, target: nat, n: nat)
    requires StateOf(norm, entries, s) && n <= |r.summary.claimEvidence|
    requires Names(norm, s, Entry(field, value, []), (field, target))
    ensures
      StateOf(norm, entries + EvidenceEntries(r, field, item, value, n), WithEvidence(r, field, item, target, n, s))
  {
    if n == 0 {
      NoEvidence(norm, entries, s, r, field, item, value, target);
    } else {
      EvidenceKeeps(norm, entries, s, r, field, item, value, target, n - 1);
      EvidenceStep(norm, entries, s, r, field, item, value, target, n - 1);
    }
  }

  /** One more item, with its claims. */
  lemma ItemKeeps(norm: Utf16 -> Utf16, entries: seq<Entry>, s: State, r: ChunkSummary, field: ClaimField, n: nat)
    requires StateOf(norm, entries, s) && field in s.lists && field != Summary
    requires field in r.summary.lists && n < |r.summary.lists[field]|
    ensures
      var value := r.summary.lists[field][n];
      var placed := Placed(norm, s, field, value);
      StateOf(
        norm, entries + [Entry(field, value, [])] + AllEvidence(r, field, n, value),
        WithEvidence(r, field, n, placed.itemIndexes[(field, norm(value))], |r.summary.claimEvidence|, placed))
  {
    var value := r.summary.lists[field][n];
    var placed := Placed(norm, s, field, value);
    PlaceKeeps(norm, entries, s, field, value);
    EvidenceKeeps(norm, entries + [Entry(field, value, [])], placed, r, field, n, value,
                  placed.itemIndexes[(field, norm(value))], |r.summary.claimEvidence|);
  }

  lemma OneMoreItem(entries: seq<Entry>, r: ChunkSummary, field: ClaimField, n: nat)
    requires field in r.summary.lists && n < |r.summary.lists[field]|
    ensures
      var value := r.summary.lists[field][n];
      entries + ItemEntries(r, field, n + 1)
        == entries + ItemEntries(r, field, n) + [Entry(field, value, [])] + AllEvidence(r, field, n, value)
  {
  }

  lemma OneMoreState(norm: Utf16 -> Utf16, s: State, r: ChunkSummary, field: ClaimField, n: nat)
    requires field in s.lists && field in r.summary.lists && n < |r.summary.lists[field]|
    ensures
      var before, value := WithItems(norm, r, field, n, s), r.summary.lists[field][n];
      var placed := Placed(norm, before, field, value);
      WithItems(norm, r, field, n + 1, s)
        == WithEvidence(r, field, n, placed.itemIndexes[(field, norm(value))], |r.summary.claimEvidence|, placed)
  {
  }

  lemma ItemsKeep(
    norm: Utf16 -> Utf16, entries: seq<Entry>, s: State, r: ChunkSummary, field: ClaimField, n: nat)
    returns (now: State)
    requires StateOf(norm, entries, s) && field in s.lists && field != Summary
    requires field in r.summary.lists && n <= |r.summary.lists[field]|
    ensures now == WithItems(norm, r, field, n, s)
    ensures StateOf(norm, entries + ItemEntries(r, field, n), now)
  {
    now := NoItems(norm, entries, s, r, field);
    for m := 0 to n
      invariant now == WithItems(norm, r, field, m, s)
      invariant StateOf(norm, entries + ItemEntries(r, field, m), now)
    {
      now := ItemsMore(norm, entries, s, now, r, field, m);
    }
  }

  lemma NoItems(norm: Utf16 -> Utf16, entries: seq<Entry>, s: State, r: ChunkSummary, field: ClaimField)
    returns (now: State)
    requires StateOf(norm, entries, s) && field in s.lists && field in r.summary.lists
    ensures now == WithItems(norm, r, field, 0, s) && StateOf(norm, entries + ItemEntries(r, field, 0), now)
  {
    assert entries + [] == entries;
    now := s;
  }

  lemma ItemsMore(
    norm: Utf16 -> Utf16, entries: seq<Entry>, s: State, now: State, r: ChunkSummary, field: ClaimField, n: nat)
    returns (next: State)
    requires field in s.lists && field != Summary && field in r.summary.lists && n < |r.summary.lists[field]|
    requires now == WithItems(norm, r, field, n, s) && StateOf(norm, entries + ItemEntries(r, field, n), now)
    ensures next == WithItems(norm, r, field, n + 1, s)
    ensures StateOf(norm, entries + ItemEntries(r, field, n + 1), next)
  {
    OneMoreItem(entries, r, field, n);
    OneMoreState(norm, s, r, field, n);
    next := OneItemOn(norm, entries + ItemEntries(r, field, n), now, r, field, n);
  }

  /** The state after one more item. */
  lemma OneItemOn(norm: Utf16 -> Utf16, entries: seq<Entry>, s: State, r: ChunkSummary, field: ClaimField, n: nat)
    returns (now: State)
    requires StateOf(norm, entries, s) && field in s.lists && field != Summary
    requires field in r.summary.lists && n < |r.summary.lists[field]|
    ensures
      var value := r.summary.lists[field][n];
      var placed := Placed(norm, s, field, value);
      && now == WithEvidence(r, field, n, placed.itemIndexes[(field, norm(value))], |r.summary.claimEvidence|, placed)
      && StateOf(norm, entries + [Entry(field, value, [])] + AllEvidence(r, field, n, value), now)
  {
    var value := r.summary.lists[field][n];
    var placed := Placed(norm, s, field, value);
    ItemKeeps(norm, entries, s, r, field, n);
    now := WithEvidence(r, field, n, placed.itemIndexes[(field, norm(value))], |r.summary.claimEvidence|, placed);
  }

  lemma {:induction false} FieldsKeep(norm: Utf16 -> Utf16, entries: seq<Entry>, s: State, r: ChunkSummary, k: nat)
    requires StateOf(norm, entries, s) && HasLists(r.summary) && k <= |LIST_FIELDS|
    requires forall f :: f in LIST_FIELDS ==> f in s.lists
    ensures StateOf(norm, entries + FieldEntries(r, k), WithFields(norm, r, k, s))
  {
    if k == 0 {
      assert entries + [] == entries;
    } else {
      FieldsKeep(norm, entries, s, r, k - 1);
      FieldKeeps(norm, entries, s, r, k - 1);
    }
  }

  lemma FieldKeeps(norm: Utf16 -> Utf16, entries: seq<Entry>, s: State, r: ChunkSummary, k: nat)
    requires HasLists(r.summary) && k < |LIST_FIELDS| && forall f :: f in LIST_FIELDS ==> f in s.lists
    requires StateOf(norm, entries + FieldEntries(r, k), WithFields(norm, r, k, s))
    ensures StateOf(norm, entries + FieldEntries(r, k + 1), WithFields(norm, r, k + 1, s))
  {
    var field := LIST_FIELDS[k];
    assert field in LIST_FIELDS;
    ListFieldsDistinct();
    var so := entries + FieldEntries(r, k);
    var now := ItemsKeep(norm, so, WithFields(norm, r, k, s), r, field, |r.summary.lists[field]|);
    assert so + ItemEntries(r, field, |r.summary.lists[field]|) == entries + FieldEntries(r, k + 1);
  }

  function WithSummary(r: ChunkSummary, s: State): State {
    if Trim(r.summary.summary) == [] then s else WithEvidence(r, Summary, 0, 0, |r.summary.claimEvidence|, s)
  }

  lemma SummaryKeeps(norm: Utf16 -> Utf16, entries: seq<Entry>, s: State, r: ChunkSummary)
    requires StateOf(norm, entries, s)
    ensures StateOf(norm, entries + SummaryEntries(r), WithSummary(r, s))
  {
    if Trim(r.summary.summary) == [] {
      assert entries + [] == entries;
    } else {
      EvidenceKeeps(norm, entries, s, r, Summary, 0, [], 0, |r.summary.claimEvidence|);
    }
  }

  lemma ChunkKeeps(norm: Utf16 -> Utf16, entries: seq<Entry>, s: State, r: ChunkSummary)
    requires StateOf(norm, entries, s) && HasLists(r.summary) && forall f :: f in LIST_FIELDS ==> f in s.lists
    ensures StateOf(norm, entries + ChunkEntries(r), WithChunk(norm, r, s))
  {
    SummaryKeeps(norm, entries, s, r);
    FieldsKeep(norm, entries + SummaryEntries(r), WithSummary(r, s), r, |LIST_FIELDS|);
    ChunkParts(entries, r);
  }

  lemma ChunkParts(entries: seq<Entry>, r: ChunkSummary)
    requires HasLists(r.summary)
    ensures entries + ChunkEntries(r) == entries + SummaryEntries(r) + FieldEntries(r, |LIST_FIELDS|)
  {
  }

  /** The merge of all chunks, in order. */
  function Merged(norm: Utf16 -> Utf16, results: seq<ChunkSummary>): (s: State)
    requires AllHaveLists(results)
    ensures s.lists.Keys == set f | f in LIST_FIELDS
  {
    if results == [] then EMPTY_STATE
    else WithChunk(norm, results[|results| - 1], Merged(norm, results[..|results| - 1]))
  }

  lemma {:induction false} MergedSound(norm: Utf16 -> Utf16, results: seq<ChunkSummary>)
    requires AllHaveLists(results)
    ensures StateOf(norm, Entries(results), Merged(norm, results))
  {
    if results == [] {
      assert forall f :: f in EMPTY_STATE.lists ==> EMPTY_STATE.lists[f] == [];
    } else {
      var front := results[..|results| - 1];
      MergedSound(norm, front);
      ChunkKeeps(norm, Entries(front), Merged(norm, front), results[|results| - 1]);
    }
  }

  // -------------------------------------------------- in terms of the chunk summaries

  lemma {:induction false} ShownFacts(indexes: seq<nat>, segments: seq<nat>)
    ensures forall x :: x in Shown(indexes, segments) <==> x in indexes && x in segments
  {
    if segments != [] {
      ShownFacts(indexes, segments[..|segments| - 1]);
      assert segments == segments[..|segments| - 1] + [segments[|segments| - 1]];
    }
  }

  lemma {:induction false} EvidenceCites(
    r: ChunkSummary, field: ClaimField, item: nat, value: Utf16, n: nat, e: Entry, x: nat)
    requires n <= |r.summary.claimEvidence| && e in EvidenceEntries(r, field, item, value, n) && x in e.cited
    ensures e.field == field && e.value == value && Cites(r, field, item, x)
  {
    var given := r.summary.claimEvidence[n - 1];
    if e !in EvidenceEntries(r, field, item, value, n - 1) {
      ShownFacts(r.segmentIndexes, given.segments);
      BoundedFacts(Shown(r.segmentIndexes, given.segments));
      assert given in r.summary.claimEvidence;
    } else {
      EvidenceCites(r, field, item, value, n - 1, e, x);
    }
  }

  lemma {:induction false} ItemsCite(norm: Utf16 -> Utf16, r: ChunkSummary, field: ClaimField, n: nat, e: Entry, x: nat)
    requires field in r.summary.lists && field != Summary && n <= |r.summary.lists[field]|
    requires e in ItemEntries(r, field, n) && x in e.cited
    ensures e.field == field && BackedBy(norm, r, field, e.value, x)
  {
    if e in ItemEntries(r, field, n - 1) {
      ItemsCite(norm, r, field, n - 1, e, x);
    } else {
      EvidenceCites(r, field, n - 1, r.summary.lists[field][n - 1], |r.summary.claimEvidence|, e, x);
    }
  }

  lemma ListFieldAt(k: nat)
    requires k < |LIST_FIELDS|
    ensures LIST_FIELDS[k] in LIST_FIELDS && LIST_FIELDS[k] != Summary
  {
    ListFieldsDistinct();
  }

  lemma {:induction false} FieldsCite(norm: Utf16 -> Utf16, r: ChunkSummary, k: nat, e: Entry, x: nat)
    requires HasLists(r.summary) && k <= |LIST_FIELDS| && e in FieldEntries(r, k) && x in e.cited
    ensures BackedBy(norm, r, e.field, e.value, x)
  {
    var field := LIST_FIELDS[k - 1];
    if e in FieldEntries(r, k - 1) {
      FieldsCite(norm, r, k - 1, e, x);
    } else {
      ListFieldAt(k - 1);
      ItemsCite(norm, r, field, |r.summary.lists[field]|, e, x);
    }
  }

  lemma {:induction false} EntriesBacked(norm: Utf16 -> Utf16, results: seq<ChunkSummary>, e: Entry, x: nat)
    requires AllHaveLists(results) && e in Entries(results) && x in e.cited
    ensures Backed(norm, results, e.field, e.value, x)
  {
    var front, r := results[..|results| - 1], results[|results| - 1];
    assert results == front + [r];
    if e in Entries(front) {
      EntriesBacked(norm, front, e, x);
      var q :| q in front && BackedBy(norm, q, e.field, e.value, x);
      assert q in results;
    } else {
      if e in SummaryEntries(r) {
        EvidenceCites(r, Summary, 0, [], |r.summary.claimEvidence|, e, x);
      } else {
        FieldsCite(norm, r, |LIST_FIELDS|, e, x);
      }
      assert r in results;
    }
  }

  /** Every segment of a claim was shown to a chunk that holds the claim's item and cites
      the segment for it. */
  lemma ClaimsAreBacked(norm: Utf16 -> Utf16, results: seq<ChunkSummary>, key: Key, x: nat)
    requires AllHaveLists(results)
    requires key in Merged(norm, results).claims && x in Merged(norm, results).claims[key]
    ensures
      var s := Merged(norm, results);
      && Claimable(s, key)
      && Backed(norm, results, key.0, if key.0 == Summary then [] else s.lists[key.0][key.1], x)
  {
    MergedSound(norm, results);
    var s := Merged(norm, results);
    assert Supported(norm, Entries(results), s, key, x) && WellFormed(s, key);
    var e :| e in Entries(results) && Names(norm, s, e, key) && x in e.cited;
    EntriesBacked(norm, results, e, x);
    SameBacking(norm, results, e.field, e.value, if key.0 == Summary then [] else s.lists[key.0][key.1], x);
  }

  lemma SameBacking(norm: Utf16 -> Utf16, results: seq<ChunkSummary>, field: ClaimField, a: Utf16, b: Utf16, x: nat)
    requires Backed(norm, results, field, a, x) && (field == Summary || norm(a) == norm(b))
    ensures Backed(norm, results, field, b, x)
  {
    var r :| r in results && BackedBy(norm, r, field, a, x);
    assert BackedBy(norm, r, field, b, x);
  }
}

/** The aggregation of chunk summaries as it is written (src/llm/summary-plan.ts:220-352):
    the mutable merge state, the output bounds and the notice they force. */
module SummaryAggregate {

  import opened Common
  import opened SummarySchema
  import opened SummaryMerge

  // ---------------------------------------------------------------------- the state

  class AggregationState {
    const norm: Utf16 -> Utf16
    var lists: map<ClaimField, seq<Utf16>>
    var itemIndexes: map<(ClaimField, Utf16), nat>
    var claims: map<Key, seq<nat>>
    var claimOrder: seq<Key>
    var legacyEvidence: seq<nat>
    var summaryParts: seq<Utf16>

    ghost function Value(): State reads this { State(lists, itemIndexes, claims, claimOrder) }

    constructor (norm: Utf16 -> Utf16)
      ensures this.norm == norm && Value() == EMPTY_STATE && legacyEvidence == [] && summaryParts == []
    {
      this.norm := norm;
      lists := map f | f in LIST_FIELDS :: [];
      itemIndexes, claims, claimOrder, legacyEvidence, summaryParts := map[], map[], [], [], [];
    }

    method MergeClaim(field: ClaimField, item: nat, segments: seq<nat>)
      modifies `claims, `claimOrder
      ensures Value() == AddClaim(old(Value()), (field, item), segments)
    {
      if |segments| == 0 {
        return;
      }
      var key := (field, item);
      var existing := if key in claims then claims[key] else [];
      if key !in claims {
        claimOrder := claimOrder + [key];
      }
      claims := claims[key := Bounded(existing + segments)];
    }

    method PlaceItem(field: ClaimField, value: Utf16) returns (target: nat)
      requires field in lists
      modifies `lists, `itemIndexes
      ensures Value() == Placed(norm, old(Value()), field, value)
      ensures (field, norm(value)) in itemIndexes && target == itemIndexes[(field, norm(value))]
    {
      var dedupeKey := (field, norm(value));
      if dedupeKey in itemIndexes {
        target := itemIndexes[dedupeKey];
      } else {
        target := |lists[field]|;
        lists := lists[field := lists[field] + [value]];
        itemIndexes := itemIndexes[dedupeKey := target];
      }
    }

    /** The claims one item brings with it. */
    method MergeEvidence(r: ChunkSummary, field: ClaimField, item: nat, target: nat)
      modifies `claims, `claimOrder
      ensures Value() == WithEvidence(r, field, item, target, |r.summary.claimEvidence|, old(Value()))
    {
      for n := 0 to |r.summary.claimEvidence|
        invariant Value() == WithEvidence(r, field, item, target, n, old(Value()))
      {
        var evidence := r.summary.claimEvidence[n];
        if evidence.field == field && evidence.item == item {
          MergeClaim(field, target, Allowed(r, evidence.segments));
        }
      }
    }

    method MergeItems(r: ChunkSummary, field: ClaimField)
      requires field in r.summary.lists && field in lists
      modifies `lists, `itemIndexes, `claims, `claimOrder
      ensures Value() == WithItems(norm, r, field, |r.summary.lists[field]|, old(Value()))
    {
      for n := 0 to |r.summary.lists[field]|
        invariant Value() == WithItems(norm, r, field, n, old(Value()))
      {
        var target := PlaceItem(field, r.summary.lists[field][n]);
        MergeEvidence(r, field, n, target);
      }
    }

    method MergeFields(r: ChunkSummary)
      requires HasLists(r.summary) && forall f :: f in LIST_FIELDS ==> f in lists
      modifies `lists, `itemIndexes, `claims, `claimOrder
      ensures Value() == WithFields(norm, r, |LIST_FIELDS|, old(Value()))
    {
      for k := 0 to |LIST_FIELDS|
        invariant Value() == WithFields(norm, r, k, old(Value()))
      {
        assert LIST_FIELDS[k] in LIST_FIELDS;
        MergeItems(r, LIST_FIELDS[k]);
      }
    }

    method MergeLegacy(r: ChunkSummary)
      modifies `legacyEvidence
      ensures legacyEvidence == old(legacyEvidence) + Shown(r.segmentIndexes, r.summary.evidence)
    {
      for n := 0 to |r.summary.evidence|
        invariant legacyEvidence == old(legacyEvidence) + Shown(r.segmentIndexes, r.summary.evidence[..n])
      {
        assert r.summary.evidence[..n + 1][..n] == r.summary.evidence[..n];
        AllowedOne(r, r.summary.evidence[n]);
        legacyEvidence := legacyEvidence + Allowed(r, [r.summary.evidence[n]]);
      }
      assert r.summary.evidence[..|r.summary.evidence|] == r.summary.evidence;
    }

    method MergeChunkSummary(r: ChunkSummary)
      requires HasLists(r.summary) && forall f :: f in LIST_FIELDS ==> f in lists
      modifies this
      ensures Value() == WithChunk(norm, r, old(Value()))
      ensures summaryParts == old(summaryParts) + PartOf(r)
      ensures legacyEvidence == old(legacyEvidence) + Shown(r.segmentIndexes, r.summary.evidence)
    {
      var summaryItem := Trim(r.summary.summary);
      if |summaryItem| > 0 {
        summaryParts := summaryParts + [summaryItem];
        MergeEvidence(r, Summary, 0, 0);
      }
      assert Value() == WithSummary(r, old(Value()));
      MergeFields(r);
      MergeLegacy(r);
    }
  }

  function PartOf(r: ChunkSummary): seq<Utf16> {
    if Trim(r.summary.summary) == [] then [] else [Trim(r.summary.summary)]
  }

  lemma AllowedOne(r: ChunkSummary, segment: nat)
    ensures Allowed(r, [segment]) == if segment in r.segmentIndexes then [segment] else []
  {
    assert [segment][..0] == [];
    assert Shown(r.segmentIndexes, []) == [] && Distinct([]) == [];
    assert Distinct([segment]) == [segment];
  }

  // -------------------------------------------------------------------- the bounds

  datatype Dropped = Items(field: ClaimField, count: nat) | Characters(count: nat) | ReservedForNotice

  const SEPARATOR: Utf16 := [0x0A, 0x0A]

  function Joined(parts: seq<Utf16>): Utf16 {
    if parts == [] then []
    else if |parts| == 1 then parts[0]
    else Joined(parts[..|parts| - 1]) + SEPARATOR + parts[|parts| - 1]
  }

  function Concat(segments: seq<Utf16>): Utf16 {
    if segments == [] then [] else Concat(segments[..|segments| - 1]) + segments[|segments| - 1]
  }

  /** The longest run of whole leading graphemes within the summary bound. */
  ghost predicate Truncates(segments: seq<Utf16>, n: nat) {
    && n <= |segments| && |Concat(segments[..n])| <= MAX_SUMMARY
    && (n < |segments| ==> |Concat(segments[..n])| + |segments[n]| > MAX_SUMMARY)
  }

  method TruncateSummary(segments: seq<Utf16>) returns (bounded: Utf16, ghost n: nat)
    ensures Truncates(segments, n) && bounded == Concat(segments[..n])
  {
    bounded, n := [], 0;
    assert segments[..0] == [];
    for k := 0 to |segments|
      invariant n == k && bounded == Concat(segments[..k]) && |bounded| <= MAX_SUMMARY
    {
      if |bounded| + |segments[k]| > MAX_SUMMARY {
        return;
      }
      assert segments[..k + 1][..k] == segments[..k];
      bounded, n := bounded + segments[k], k + 1;
    }
  }

  predicate TooMany(lists: map<ClaimField, seq<Utf16>>, field: ClaimField) {
    field in lists && |lists[field]| > MAX_ITEMS
  }

  /** Something does not fit the bounds. */
  ghost predicate Overflows(s: State, joined: Utf16) {
    |joined| > MAX_SUMMARY || exists f :: f in LIST_FIELDS && TooMany(s.lists, f)
  }

  /** The lists with the given fields cut to the bound. */
  function Cut(lists: map<ClaimField, seq<Utf16>>, fields: seq<ClaimField>): map<ClaimField, seq<Utf16>> {
    if fields == [] then lists
    else
      var m, last := Cut(lists, fields[..|fields| - 1]), fields[|fields| - 1];
      if TooMany(m, last) then m[last := m[last][..MAX_ITEMS]] else m
  }

  /** What cutting them drops. */
  function CutAway(lists: map<ClaimField, seq<Utf16>>, fields: seq<ClaimField>): seq<Dropped> {
    if fields == [] then []
    else
      var last := fields[|fields| - 1];
      CutAway(lists, fields[..|fields| - 1]) +
      if TooMany(lists, last) then [Items(last, |lists[last]| - MAX_ITEMS)] else []
  }

  lemma {:induction false} CutFacts(lists: map<ClaimField, seq<Utf16>>, fields: seq<ClaimField>)
    ensures Cut(lists, fields).Keys == lists.Keys
    ensures forall f :: f in lists ==>
      Cut(lists, fields)[f] == if f in fields then Take(lists[f], MAX_ITEMS) else lists[f]
  {
    if fields != [] {
      var front, last := fields[..|fields| - 1], fields[|fields| - 1];
      CutFacts(lists, front);
      assert fields == front + [last];
      assert Cut(lists, fields).Keys == lists.Keys;
      forall f | f in lists
        ensures Cut(lists, fields)[f] == if f in fields then Take(lists[f], MAX_ITEMS) else lists[f]
      {
        CutOneMore(lists, front, last, f);
      }
    }
  }

  lemma {:induction false} CutAwayFacts(lists: map<ClaimField, seq<Utf16>>, fields: seq<ClaimField>)
    ensures forall d :: d in CutAway(lists, fields) <==>
      d.Items? && d.field in fields && TooMany(lists, d.field) && d.count == |lists[d.field]| - MAX_ITEMS
  {
    if fields != [] {
      CutAwayFacts(lists, fields[..|fields| - 1]);
      assert fields == fields[..|fields| - 1] + [fields[|fields| - 1]];
    }
  }

  lemma CutOneMore(lists: map<ClaimField, seq<Utf16>>, front: seq<ClaimField>, last: ClaimField, f: ClaimField)
    requires f in lists && Cut(lists, front).Keys == lists.Keys == Cut(lists, front + [last]).Keys
    requires Cut(lists, front)[f] == if f in front then Take(lists[f], MAX_ITEMS) else lists[f]
    ensures Cut(lists, front + [last])[f] == if f in front + [last] then Take(lists[f], MAX_ITEMS) else lists[f]
  {
    assert (front + [last])[..|front|] == front;
  }

  /** The list bounds, field by field. */
  method BoundLists(lists0: map<ClaimField, seq<Utf16>>, fields: seq<ClaimField>)
    returns (lists: map<ClaimField, seq<Utf16>>, overflow: seq<Dropped>)
    requires NoDuplicates(fields) && forall f :: f in fields ==> f in lists0
    ensures lists == Cut(lists0, fields) && overflow == CutAway(lists0, fields)
  {
    lists, overflow := lists0, [];
    for k := 0 to |fields|
      invariant lists == Cut(lists0, fields[..k]) && overflow == CutAway(lists0, fields[..k])
    {
      var field := fields[k];
      assert fields[..k + 1][..k] == fields[..k];
      CutFacts(lists0, fields[..k]);
      assert field !in fields[..k];
      if |lists[field]| > MAX_ITEMS {
        overflow := overflow + [Items(field, |lists[field]| - MAX_ITEMS)];
        lists := lists[field := lists[field][..MAX_ITEMS]];
      }
    }
    assert fields[..|fields|] == fields;
  }

  /** Claims that still point at something: the untruncated summary, or an item that is
      in the final list and is not the notice. */
  predicate Retained(lists: map<ClaimField, seq<Utf16>>, summary: Utf16, truncated: bool, overflowed: bool, key: Key) {
    if key.0 == Summary then !truncated && summary != [] && key.1 == 0
    else if key.0 == Uncertainties && overflowed then key.1 < MAX_ITEMS - 1
    else key.0 in lists && key.1 < |lists[key.0]|
  }

  function RetainedClaims(
    claims: map<Key, seq<nat>>, order: seq<Key>, lists: map<ClaimField, seq<Utf16>>,
    summary: Utf16, truncated: bool, overflowed: bool): seq<ClaimEvidence>
    requires forall k :: 0 <= k < |order| ==> order[k] in claims
  {
    if order == [] then []
    else
      var key := order[|order| - 1];
      RetainedClaims(claims, order[..|order| - 1], lists, summary, truncated, overflowed) +
      if Retained(lists, summary, truncated, overflowed, key)
      then [ClaimEvidence(key.0, key.1, claims[key])] else []
  }

  // ------------------------------------------------------------- what is promised

  /** Without overflow everything is kept; with it, what the bounds leave and, last among
      the uncertainties, a notice of all that was dropped. */
  ghost predicate NothingSilent(
    s: State, joined: Utf16, notice: seq<Dropped> -> Utf16, overflow: seq<Dropped>, r: StructuredSummary)
  {
    && r.lists.Keys == s.lists.Keys && Uncertainties in s.lists
    && (overflow == [] ==> r.lists == s.lists && r.summary == joined)
    && (overflow != [] <==> Overflows(s, joined))
    && (overflow != [] ==>
          && (forall f :: f in s.lists && f != Uncertainties ==> r.lists[f] == Take(s.lists[f], MAX_ITEMS))
          && r.lists[Uncertainties] == Take(s.lists[Uncertainties], MAX_ITEMS - 1) + [notice(overflow)]
          && (forall f :: f in LIST_FIELDS && TooMany(s.lists, f) ==> Items(f, |s.lists[f]| - MAX_ITEMS) in overflow)
          && (|joined| > MAX_SUMMARY ==> Characters(|joined| - MAX_SUMMARY) in overflow)
          && (|s.lists[Uncertainties]| >= MAX_ITEMS ==> ReservedForNotice in overflow))
    && (forall f :: f in r.lists ==> |r.lists[f]| <= MAX_ITEMS) && |r.summary| <= MAX_SUMMARY
  }

  /** A claim of the output is about an item that was not touched, and every segment it
      names was cited for that item by a chunk that had been shown it. */
  ghost predicate ClaimStands(
    norm: Utf16 -> Utf16, results: seq<ChunkSummary>, s: State, joined: Utf16, r: StructuredSummary, c: ClaimEvidence)
  {
    && c.segments != [] && |c.segments| <= MAX_ITEMS && NoDuplicates(c.segments)
    && if c.field == Summary then
         && c.item == 0 && r.summary == joined && joined != []
         && forall x :: x in c.segments ==> Backed(norm, results, Summary, [], x)
       else
         && c.field in r.lists && c.item < |r.lists[c.field]|
         && c.field in s.lists && c.item < |s.lists[c.field]|
         && r.lists[c.field][c.item] == s.lists[c.field][c.item]
         && forall x :: x in c.segments ==> Backed(norm, results, c.field, r.lists[c.field][c.item], x)
  }

  /** With overflow the last uncertainty is the notice, whatever it says. */
  ghost predicate NotTheNotice(overflow: seq<Dropped>, r: StructuredSummary, c: ClaimEvidence) {
    overflow != [] && c.field == Uncertainties ==>
      Uncertainties in r.lists && c.item < |r.lists[Uncertainties]| - 1
  }

  lemma {:induction false} RetainedFacts(
    claims: map<Key, seq<nat>>, order: seq<Key>, lists: map<ClaimField, seq<Utf16>>,
    summary: Utf16, truncated: bool, overflowed: bool)
    requires forall k :: 0 <= k < |order| ==> order[k] in claims
    ensures forall c :: c in RetainedClaims(claims, order, lists, summary, truncated, overflowed) <==>
      && (c.field, c.item) in order && c.segments == claims[(c.field, c.item)]
      && Retained(lists, summary, truncated, overflowed, (c.field, c.item))
  {
    if order != [] {
      RetainedFacts(claims, order[..|order| - 1], lists, summary, truncated, overflowed);
      assert order == order[..|order| - 1] + [order[|order| - 1]];
    }
  }

  lemma {:induction false} RetainedDiffer(
    claims: map<Key, seq<nat>>, order: seq<Key>, lists: map<ClaimField, seq<Utf16>>,
    summary: Utf16, truncated: bool, overflowed: bool)
    requires NoDuplicates(order) && forall k :: 0 <= k < |order| ==> order[k] in claims
    ensures DifferentClaims(RetainedClaims(claims, order, lists, summary, truncated, overflowed))
  {
    if order != [] {
      var front, last := order[..|order| - 1], order[|order| - 1];
      RetainedDiffer(claims, front, lists, summary, truncated, overflowed);
      RetainedFacts(claims, front, lists, summary, truncated, overflowed);
      var kept := RetainedClaims(claims, front, lists, summary, truncated, overflowed);
      forall j | 0 <= j < |kept| ensures !(kept[j].field == last.0 && kept[j].item == last.1) {
        assert kept[j] in kept;
      }
    }
  }

  /** A retained item is where it was, and was not cut. */
  lemma RetainedKept(
    s: State, joined: Utf16, notice: seq<Dropped> -> Utf16, overflow: seq<Dropped>, r: StructuredSummary, key: Key)
    requires NothingSilent(s, joined, notice, overflow, r)
    requires key.0 != Summary && key.0 in s.lists && key.1 < |s.lists[key.0]|
    requires Retained(r.lists, r.summary, |joined| > MAX_SUMMARY, overflow != [], key)
    ensures key.0 in r.lists && key.1 < |r.lists[key.0]| && r.lists[key.0][key.1] == s.lists[key.0][key.1]
    ensures key.0 == Uncertainties && overflow != [] ==> key.1 < |r.lists[Uncertainties]| - 1
  {
  }

  lemma RetainedStands(
    norm: Utf16 -> Utf16, results: seq<ChunkSummary>, joined: Utf16, notice: seq<Dropped> -> Utf16,
    overflow: seq<Dropped>, r: StructuredSummary, key: Key)
    requires AllHaveLists(results) && NothingSilent(Merged(norm, results), joined, notice, overflow, r)
    requires r.summary == joined || |joined| > MAX_SUMMARY
    requires key in Merged(norm, results).claims
    requires Retained(r.lists, r.summary, |joined| > MAX_SUMMARY, overflow != [], key)
    ensures
      var c := ClaimEvidence(key.0, key.1, Merged(norm, results).claims[key]);
      ClaimStands(norm, results, Merged(norm, results), joined, r, c) && NotTheNotice(overflow, r, c)
  {
    var s := Merged(norm, results);
    MergedSound(norm, results);
    assert WellFormed(s, key);
    if key.0 != Summary { RetainedKept(s, joined, notice, overflow, r, key); }
    forall x | x in s.claims[key]
      ensures Backed(norm, results, key.0, if key.0 == Summary then [] else s.lists[key.0][key.1], x)
    {
      ClaimsAreBacked(norm, results, key, x);
    }
  }

  /** Every claim of the output stands, and no claim that still can is left out. */
  ghost predicate ClaimsStand(
    norm: Utf16 -> Utf16, results: seq<ChunkSummary>, joined: Utf16, overflow: seq<Dropped>, r: StructuredSummary)
    requires AllHaveLists(results)
  {
    var s := Merged(norm, results);
    && DifferentClaims(r.claimEvidence)
    && (forall c :: c in r.claimEvidence ==>
          ClaimStands(norm, results, s, joined, r, c) && NotTheNotice(overflow, r, c))
    && (forall key :: key in s.claims && Retained(r.lists, r.summary, |joined| > MAX_SUMMARY, overflow != [], key) ==>
          ClaimEvidence(key.0, key.1, s.claims[key]) in r.claimEvidence)
  }

  lemma OutputClaimsStand(
    norm: Utf16 -> Utf16, results: seq<ChunkSummary>, joined: Utf16, notice: seq<Dropped> -> Utf16,
    overflow: seq<Dropped>, r: StructuredSummary)
    requires AllHaveLists(results) && NothingSilent(Merged(norm, results), joined, notice, overflow, r)
    requires r.summary == joined || |joined| > MAX_SUMMARY
    requires var s := Merged(norm, results);
      && NoDuplicates(s.order) && (forall k :: 0 <= k < |s.order| ==> s.order[k] in s.claims)
      && r.claimEvidence ==
           RetainedClaims(s.claims, s.order, r.lists, r.summary, |joined| > MAX_SUMMARY, overflow != [])
    ensures ClaimsStand(norm, results, joined, overflow, r)
  {
    var s := Merged(norm, results);
    MergedSound(norm, results);
    RetainedFacts(s.claims, s.order, r.lists, r.summary, |joined| > MAX_SUMMARY, overflow != []);
    RetainedDiffer(s.claims, s.order, r.lists, r.summary, |joined| > MAX_SUMMARY, overflow != []);
    forall c | c in r.claimEvidence
      ensures ClaimStands(norm, results, s, joined, r, c) && NotTheNotice(overflow, r, c)
    {
      RetainedStands(norm, results, joined, notice, overflow, r, (c.field, c.item));
    }
    forall key | key in s.claims && Retained(r.lists, r.summary, |joined| > MAX_SUMMARY, overflow != [], key)
      ensures ClaimEvidence(key.0, key.1, s.claims[key]) in r.claimEvidence
    {
      assert key in s.order && (key.0, key.1) == key;
    }
  }

  /** The merge loop. */
  method MergeAll(results: seq<ChunkSummary>, norm: Utf16 -> Utf16) returns (state: AggregationState)
    requires AllHaveLists(results)
    ensures state.Value() == Merged(norm, results)
    ensures state.summaryParts == SummaryParts(results) && state.legacyEvidence == Legacy(results)
  {
    state := new AggregationState(norm);
    for k := 0 to |results|
      invariant fresh(state) && state.norm == norm && state.Value() == Merged(norm, results[..k])
      invariant state.summaryParts == SummaryParts(results[..k]) && state.legacyEvidence == Legacy(results[..k])
    {
      assert results[..k + 1][..k] == results[..k];
      state.MergeChunkSummary(results[k]);
    }
    assert results[..|results|] == results;
  }

  /** All that is dropped, before the notice claims its place. */
  function Excess(s: State, joined: Utf16): seq<Dropped> {
    CutAway(s.lists, LIST_FIELDS) + if |joined| > MAX_SUMMARY then [Characters(|joined| - MAX_SUMMARY)] else []
  }

  /** What the notice reports. */
  function Report(s: State, joined: Utf16): seq<Dropped> {
    Excess(s, joined) +
    if Excess(s, joined) != [] && Uncertainties in s.lists && |s.lists[Uncertainties]| >= MAX_ITEMS
    then [ReservedForNotice] else []
  }

  function Announced(s: State, joined: Utf16, notice: seq<Dropped> -> Utf16): map<ClaimField, seq<Utf16>> {
    var cut := Cut(s.lists, LIST_FIELDS);
    if Excess(s, joined) == [] || Uncertainties !in cut then cut
    else cut[Uncertainties := Take(cut[Uncertainties], MAX_ITEMS - 1) + [notice(Report(s, joined))]]
  }

  ghost predicate AllFields(s: State) { s.lists.Keys == set f | f in LIST_FIELDS }

  lemma ExcessReported(s: State, joined: Utf16)
    requires AllFields(s)
    ensures Excess(s, joined) != [] <==> Overflows(s, joined)
    ensures forall f :: f in LIST_FIELDS && TooMany(s.lists, f) ==>
      Items(f, |s.lists[f]| - MAX_ITEMS) in Excess(s, joined)
    ensures Excess(s, joined) == [] ==> forall f :: f in s.lists ==> |s.lists[f]| <= MAX_ITEMS
  {
    CutAwayFacts(s.lists, LIST_FIELDS);
    var items := CutAway(s.lists, LIST_FIELDS);
    forall f | f in LIST_FIELDS && TooMany(s.lists, f)
      ensures Items(f, |s.lists[f]| - MAX_ITEMS) in Excess(s, joined)
    {
      assert Items(f, |s.lists[f]| - MAX_ITEMS) in items;
    }
    if items != [] { assert items[0] in items && TooMany(s.lists, items[0].field); }
  }

  lemma AnnouncedLists(s: State, joined: Utf16, notice: seq<Dropped> -> Utf16)
    requires AllFields(s)
    ensures
      var lists := Announced(s, joined, notice);
      && lists.Keys == s.lists.Keys && Uncertainties in s.lists
      && (Excess(s, joined) == [] ==> lists == s.lists)
      && (Excess(s, joined) != [] ==>
            && (forall f :: f in s.lists && f != Uncertainties ==> lists[f] == Take(s.lists[f], MAX_ITEMS))
            && lists[Uncertainties] == Take(s.lists[Uncertainties], MAX_ITEMS - 1) + [notice(Report(s, joined))])
      && (forall f :: f in lists ==> |lists[f]| <= MAX_ITEMS)
  {
    AnnounceFacts(s);
    CutFacts(s.lists, LIST_FIELDS);
    var cut := Cut(s.lists, LIST_FIELDS);
    forall f | f in s.lists ensures cut[f] == Take(s.lists[f], MAX_ITEMS) { }
    if Excess(s, joined) == [] {
      ExcessReported(s, joined);
      assert cut == s.lists;
    } else {
      assert Take(cut[Uncertainties], MAX_ITEMS - 1) == Take(s.lists[Uncertainties], MAX_ITEMS - 1);
    }
  }

  lemma AnnouncedIsNotSilent(
    s: State, joined: Utf16, bounded: Utf16, notice: seq<Dropped> -> Utf16, r: StructuredSummary)
    requires AllFields(s) && r.lists == Announced(s, joined, notice) && r.summary == bounded
    requires |bounded| <= MAX_SUMMARY && (|joined| <= MAX_SUMMARY ==> bounded == joined)
    ensures NothingSilent(s, joined, notice, Report(s, joined), r)
  {
    AnnouncedLists(s, joined, notice);
    ExcessReported(s, joined);
    assert forall d :: d in Excess(s, joined) ==> d in Report(s, joined);
    assert Report(s, joined) == [] <==> Excess(s, joined) == [];
  }

  lemma AnnounceFacts(s: State)
    requires AllFields(s)
    ensures NoDuplicates(LIST_FIELDS) && forall f :: f in LIST_FIELDS ==> f in s.lists
    ensures
      var cut := Cut(s.lists, LIST_FIELDS);
      && Uncertainties in cut && Uncertainties in s.lists
      && (|cut[Uncertainties]| == MAX_ITEMS <==> |s.lists[Uncertainties]| >= MAX_ITEMS)
  {
    ListFieldsDistinct();
    CutFacts(s.lists, LIST_FIELDS);
  }

  /** The list bounds and, if anything was dropped, the notice. */
  method Announce(lists0: map<ClaimField, seq<Utf16>>, ghost s: State, joined: Utf16, notice: seq<Dropped> -> Utf16)
    returns (lists: map<ClaimField, seq<Utf16>>, overflow: seq<Dropped>)
    requires AllFields(s) && lists0 == s.lists
    ensures lists == Announced(s, joined, notice) && overflow == Report(s, joined)
  {
    AnnounceFacts(s);
    lists, overflow := BoundLists(lists0, LIST_FIELDS);
    if |joined| > MAX_SUMMARY {
      overflow := overflow + [Characters(|joined| - MAX_SUMMARY)];
    }
    assert overflow == Excess(s, joined);
    if |overflow| > 0 {
      if |lists[Uncertainties]| == MAX_ITEMS {
        overflow := overflow + [ReservedForNotice];
      }
      assert overflow == Report(s, joined);
      lists := lists[Uncertainties := Take(lists[Uncertainties], MAX_ITEMS - 1) + [notice(overflow)]];
    }
    assert Excess(s, joined) == [] ==> Report(s, joined) == [];
  }

  ghost predicate TruncatedTo(segments: seq<Utf16>, summary: Utf16) {
    exists n: nat :: Truncates(segments, n) && summary == Concat(segments[..n])
  }

  ghost predicate AggregateOf(
    norm: Utf16 -> Utf16, results: seq<ChunkSummary>, segmenter: Utf16 -> seq<Utf16>, notice: seq<Dropped> -> Utf16,
    overflow: seq<Dropped>, r: StructuredSummary)
    requires AllHaveLists(results)
  {
    var joined := Joined(SummaryParts(results));
    && NothingSilent(Merged(norm, results), joined, notice, overflow, r)
    && (|joined| > MAX_SUMMARY ==> TruncatedTo(segmenter(joined), r.summary))
    && overflow == Report(Merged(norm, results), joined)
    && ClaimsStand(norm, results, joined, overflow, r)
    && r.evidence == Bounded(Legacy(results))
  }

  method BoundSummary(joined: Utf16, segmenter: Utf16 -> seq<Utf16>) returns (summary: Utf16)
    ensures |summary| <= MAX_SUMMARY && (|joined| <= MAX_SUMMARY ==> summary == joined)
    ensures |joined| > MAX_SUMMARY ==> TruncatedTo(segmenter(joined), summary)
  {
    summary := joined;
    if |joined| > MAX_SUMMARY {
      ghost var n;
      summary, n := TruncateSummary(segmenter(joined));
    }
  }

  lemma MergedOrder(norm: Utf16 -> Utf16, results: seq<ChunkSummary>)
    requires AllHaveLists(results)
    ensures var s := Merged(norm, results);
      AllFields(s) && NoDuplicates(s.order) && forall k :: 0 <= k < |s.order| ==> s.order[k] in s.claims
  {
    MergedSound(norm, results);
  }

  method AggregateChunkSummaries(
    results: seq<ChunkSummary>, norm: Utf16 -> Utf16, segmenter: Utf16 -> seq<Utf16>, notice: seq<Dropped> -> Utf16)
    returns (r: StructuredSummary, overflow: seq<Dropped>)
    requires AllHaveLists(results)
    ensures results == [] ==> r == EMPTY_SUMMARY
    ensures results != [] ==> AggregateOf(norm, results, segmenter, notice, overflow, r)
  {
    if results == [] {
      return EMPTY_SUMMARY, [];
    }
    ghost var s := Merged(norm, results);
    MergedOrder(norm, results);
    var state := MergeAll(results, norm);
    var joined := Joined(state.summaryParts);
    var summary := BoundSummary(joined, segmenter);
    var lists;
    lists, overflow := Announce(state.lists, s, joined, notice);
    var claims := RetainedClaims(
      state.claims, state.claimOrder, lists, summary, |joined| > MAX_SUMMARY, |overflow| > 0);
    r := StructuredSummary(summary, lists, claims, Bounded(state.legacyEvidence));
    AnnouncedIsNotSilent(s, joined, summary, notice, r);
    OutputClaimsStand(norm, results, joined, notice, overflow, r);
  }
}

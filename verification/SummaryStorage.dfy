/** A stored summary read back (src/llm/schema.ts): claims, references and list lengths
    never change; the texts do not either, exactly when no bound cut one after a space. */
module SummaryStorage {

  import opened Common
  import opened SummarySchema
  import opened SummaryParse

  // ----------------------------------------------------------------------- as JSON

  function Texts(items: seq<Utf16>): Json { Arr(seq(|items|, i requires 0 <= i < |items| => Str(items[i]))) }

  function Numbers(segments: seq<nat>): Json {
    Arr(seq(|segments|, i requires 0 <= i < |segments| => Number(segments[i] as real)))
  }

  function ClaimJson(c: ClaimEvidence): Json {
    Obj(map["field" := Str(Units(Name(c.field))), "item" := Number(c.item as real), "segments" := Numbers(c.segments)])
  }

  function ReferenceJson(segment: nat): Json { Obj(map["segment" := Number(segment as real)]) }

  function ClaimJsons(claims: seq<ClaimEvidence>): seq<Json> {
    seq(|claims|, i requires 0 <= i < |claims| => ClaimJson(claims[i]))
  }

  function ReferenceJsons(evidence: seq<nat>): seq<Json> {
    seq(|evidence|, i requires 0 <= i < |evidence| => ReferenceJson(evidence[i]))
  }

  function List(s: StructuredSummary, f: ClaimField): Json { if f in s.lists then Texts(s.lists[f]) else Null }

  function Stored(s: StructuredSummary): Json {
    Obj(map[
      "summary" := Str(s.summary),
      "decisions" := List(s, Decisions), "tasks" := List(s, Tasks), "commitments" := List(s, Commitments),
      "people" := List(s, People), "places" := List(s, Places), "expenses" := List(s, Expenses),
      "ideas" := List(s, Ideas), "questions" := List(s, Questions), "uncertainties" := List(s, Uncertainties),
      "claimEvidence" := Arr(ClaimJsons(s.claimEvidence)), "evidence" := Arr(ReferenceJsons(s.evidence))])
  }

  lemma StoredFields(s: StructuredSummary, f: ClaimField)
    requires f in LIST_FIELDS && f in s.lists
    ensures Get(Stored(s), Name(f)) == Texts(s.lists[f])
  {
    ListFieldsDistinct();
    StoredEvents(s, f);
    StoredNames(s, f);
    StoredThoughts(s, f);
  }

  lemma StoredEvents(s: StructuredSummary, f: ClaimField)
    requires f in s.lists
    ensures f.Decisions? || f.Tasks? || f.Commitments? ==> Get(Stored(s), Name(f)) == Texts(s.lists[f])
  {
  }

  lemma StoredNames(s: StructuredSummary, f: ClaimField)
    requires f in s.lists
    ensures f.People? || f.Places? || f.Expenses? ==> Get(Stored(s), Name(f)) == Texts(s.lists[f])
  {
  }

  lemma StoredThoughts(s: StructuredSummary, f: ClaimField)
    requires f in s.lists
    ensures f.Ideas? || f.Questions? || f.Uncertainties? ==> Get(Stored(s), Name(f)) == Texts(s.lists[f])
  {
  }

  // -------------------------------------------------------------------- white space

  lemma {:induction false} TrimStartFacts(s: Utf16)
    ensures TrimStart(s) == [] || !IsSpace(TrimStart(s)[0])
    ensures |TrimStart(s)| <= |s|
  {
    if s != [] && IsSpace(s[0]) { TrimStartFacts(s[1..]); }
  }

  lemma {:induction false} TrimEndFacts(s: Utf16)
    ensures TrimEnd(s) <= s
    ensures s != [] && !IsSpace(s[0]) ==> TrimEnd(s) != []
  {
    if s != [] && IsSpace(s[|s| - 1]) { TrimEndFacts(s[..|s| - 1]); }
  }

  /** A text that starts with something visible only loses white space at its end. */
  lemma TrimVisible(s: Utf16)
    requires s != [] && !IsSpace(s[0])
    ensures Trim(s) != [] && Trim(s) <= s
    ensures Trim(s) == s <==> !IsSpace(s[|s| - 1])
  {
    assert TrimStart(s) == s;
    TrimEndFacts(s);
    if IsSpace(s[|s| - 1]) { TrimEndFacts(s[..|s| - 1]); }
  }

  lemma TrimFacts(s: Utf16)
    ensures Trim(s) == [] || !IsSpace(Trim(s)[0])
    ensures |Trim(s)| <= |s|
  {
    TrimStartFacts(s);
    TrimEndFacts(TrimStart(s));
  }

  /** Reading a text again gives the same one. */
  predicate Settled(text: Utf16, bound: nat) { Take(Trim(text), bound) == text }

  predicate EndsInSpace(text: Utf16) { text != [] && IsSpace(text[|text| - 1]) }

  /** What was read once changes again only if its bound cut it right after white space. */
  lemma ReadTextSettled(raw: Utf16, bound: nat)
    requires bound > 0
    ensures var text := Take(Trim(raw), bound);
      && (text != [] ==> Trim(text) != []) && |text| <= bound
      && (Settled(text, bound) <==> !EndsInSpace(text))
  {
    var text := Take(Trim(raw), bound);
    TrimFacts(raw);
    if text != [] { TrimVisible(text); }
  }

  // ---------------------------------------------------------------- lists read back

  /** What a stored list must look like to be read back in full. */
  predicate Readable(items: seq<Utf16>) {
    |items| <= MAX_ITEMS && forall i :: 0 <= i < |items| ==> Trim(items[i]) != []
  }

  function ReadItems(items: seq<Utf16>): seq<Utf16> {
    seq(|items|, i requires 0 <= i < |items| => Take(Trim(items[i]), MAX_ITEM_LENGTH))
  }

  lemma {:induction false} ItemsReadBack(items: seq<Utf16>, n: nat)
    requires Readable(items) && n <= |items|
    ensures var c := CoercedItems(Texts(items).items, n);
      && c.values == ReadItems(items)[..n]
      && (forall i: nat :: i in c.itemIndexes <==> i < n)
      && (forall i: nat :: i in c.itemIndexes ==> c.itemIndexes[i] == i)
  {
    if n > 0 {
      ItemsReadBack(items, n - 1);
      assert Texts(items).items[n - 1] == Str(items[n - 1]);
      assert Trim(items[n - 1]) != [];
      assert ReadItems(items)[..n] == ReadItems(items)[..n - 1] + [ReadItems(items)[n - 1]];
    }
  }

  lemma ListReadBack(s: StructuredSummary, f: ClaimField)
    requires f in LIST_FIELDS && f in s.lists && Readable(s.lists[f])
    ensures var c := CoercedList(Get(Stored(s), Name(f)));
      && c.values == ReadItems(s.lists[f])
      && (forall i: nat :: i in c.itemIndexes <==> i < |s.lists[f]|)
      && (forall i: nat :: i in c.itemIndexes ==> c.itemIndexes[i] == i)
  {
    StoredFields(s, f);
    ItemsReadBack(s.lists[f], |s.lists[f]|);
    assert ReadItems(s.lists[f])[..|s.lists[f]|] == ReadItems(s.lists[f]);
  }

  // --------------------------------------------------------------- claims read back

  lemma {:induction false} IntegersBack(segments: seq<nat>)
    ensures Integers(Numbers(segments).items) == segments
  {
    if segments != [] {
      var n := |segments| - 1;
      assert Numbers(segments).items[..n] == Numbers(segments[..n]).items;
      IntegersBack(segments[..n]);
      IntegerBack(segments[n]);
      assert segments == segments[..n] + [segments[n]];
    }
  }

  lemma IntegerBack(n: nat)
    ensures IntegerOf(Number(n as real)) == Some(n)
  {
  }

  lemma NamesDiffer(f: ClaimField, g: ClaimField)
    requires f != g
    ensures Units(Name(f)) != Units(Name(g))
  {
    var a, b := Units(Name(f)), Units(Name(g));
    assert |a| == |Name(f)| && |b| == |Name(g)|;
    assert a[0] == (Name(f)[0] as int) as CodeUnit && b[0] == (Name(g)[0] as int) as CodeUnit;
    assert a[1] == (Name(f)[1] as int) as CodeUnit && b[1] == (Name(g)[1] as int) as CodeUnit;
  }

  lemma {:induction false} FieldBack(f: ClaimField, among: seq<ClaimField>)
    requires f in among
    ensures FieldOf(Units(Name(f)), among) == Some(f)
  {
    if among[0] != f {
      NamesDiffer(among[0], f);
      FieldBack(f, among[1..]);
    }
  }

  /** A claim whose item is kept under its own index, with segments within the bound. */
  ghost predicate ClaimKept(c: ClaimEvidence, indexes: Indexes) {
    && c.field in indexes && c.item in indexes[c.field] && indexes[c.field][c.item] == c.item
    && c.segments != [] && |c.segments| <= MAX_ITEMS && NoDuplicates(c.segments)
  }

  lemma ClaimBack(c: ClaimEvidence, indexes: Indexes)
    requires ClaimKept(c, indexes)
    ensures ClaimOf(ClaimJson(c), indexes) == Some(c)
  {
    ClaimParts(c);
    FieldKnown(c.field);
    FieldBack(c.field, ALL_FIELDS);
    IntegerBack(c.item);
    IntegersBack(c.segments);
    DistinctOfDistinct(c.segments);
  }

  lemma ClaimParts(c: ClaimEvidence)
    ensures Get(ClaimJson(c), "field") == Str(Units(Name(c.field)))
    ensures Get(ClaimJson(c), "item") == Number(c.item as real)
    ensures Get(ClaimJson(c), "segments") == Numbers(c.segments)
  {
  }

  lemma FieldKnown(f: ClaimField)
    ensures f in ALL_FIELDS
  {
    ListFieldsDistinct();
  }

  lemma {:induction false} ClaimsBack(claims: seq<ClaimEvidence>, indexes: Indexes)
    requires DifferentClaims(claims) && forall i :: 0 <= i < |claims| ==> ClaimKept(claims[i], indexes)
    ensures CoercedClaims(ClaimJsons(claims), indexes) == claims
  {
    if claims != [] {
      var front, last := claims[..|claims| - 1], claims[|claims| - 1];
      assert ClaimJsons(claims)[..|claims| - 1] == ClaimJsons(front);
      ClaimsBack(front, indexes);
      ClaimBack(last, indexes);
      PositionFacts(front, last);
      assert claims == front + [last];
    }
  }

  lemma {:induction false} ReferencesBack(evidence: seq<nat>)
    ensures SegmentsOf(ReferenceJsons(evidence)) == evidence
  {
    if evidence != [] {
      var n := |evidence| - 1;
      assert ReferenceJsons(evidence)[..n] == ReferenceJsons(evidence[..n]);
      ReferencesBack(evidence[..n]);
      IntegerBack(evidence[n]);
      assert evidence == evidence[..n] + [evidence[n]];
    }
  }

  // ------------------------------------------------------------- the whole summary

  ghost predicate PointsAtItem(s: StructuredSummary, c: ClaimEvidence) {
    && (if c.field == Summary then c.item == 0 && Trim(s.summary) != []
        else c.field in s.lists && c.item < |s.lists[c.field]|)
    && c.segments != [] && |c.segments| <= MAX_ITEMS && NoDuplicates(c.segments)
  }

  /** Few enough items, claims and references, with one claim per item at most, each about an
      item that is there. */
  ghost predicate Storable(s: StructuredSummary) {
    && s.lists.Keys == (set f | f in LIST_FIELDS)
    && (forall f :: f in s.lists ==> Readable(s.lists[f]))
    && |s.claimEvidence| <= MAX_CLAIM_EVIDENCE && DifferentClaims(s.claimEvidence)
    && (forall i :: 0 <= i < |s.claimEvidence| ==> PointsAtItem(s, s.claimEvidence[i]))
    && |s.evidence| <= MAX_ITEMS
  }

  predicate ShortItems(items: seq<Utf16>) { forall i :: 0 <= i < |items| ==> |items[i]| <= MAX_ITEM_LENGTH }

  /** Within all bounds, those on the lengths of texts included. */
  ghost predicate WithinBounds(s: StructuredSummary) {
    && Storable(s)
    && |s.summary| <= MAX_SUMMARY && forall f :: f in s.lists ==> ShortItems(s.lists[f])
  }

  lemma SummaryReadBack(s: StructuredSummary)
    ensures SummaryText(Stored(s)) == Take(Trim(s.summary), MAX_SUMMARY)
    ensures Trim(s.summary) != [] ==> SummaryText(Stored(s)) != []
  {
  }

  lemma IndexesReadBack(s: StructuredSummary, c: ClaimEvidence)
    requires Storable(s) && PointsAtItem(s, c)
    ensures ClaimKept(c, ItemIndexes(Stored(s)))
  {
    FieldKnown(c.field);
    SummaryReadBack(s);
    ListFieldsDistinct();
    if c.field != Summary { ListReadBack(s, c.field); }
  }

  lemma StoredClaims(s: StructuredSummary)
    ensures Get(Stored(s), "claimEvidence") == Arr(ClaimJsons(s.claimEvidence))
  {
  }

  lemma EvidenceReadBack(s: StructuredSummary)
    requires Storable(s)
    ensures Parse(Stored(s)).claimEvidence == s.claimEvidence
  {
    StoredClaims(s);
    AllClaimsKept(s);
    ClaimsBack(s.claimEvidence, ItemIndexes(Stored(s)));
  }

  lemma AllClaimsKept(s: StructuredSummary)
    requires Storable(s)
    ensures forall i :: 0 <= i < |s.claimEvidence| ==> ClaimKept(s.claimEvidence[i], ItemIndexes(Stored(s)))
  {
    forall i | 0 <= i < |s.claimEvidence| ensures ClaimKept(s.claimEvidence[i], ItemIndexes(Stored(s))) {
      IndexesReadBack(s, s.claimEvidence[i]);
    }
  }

  lemma ListsReadBack(s: StructuredSummary)
    requires Storable(s)
    ensures Parse(Stored(s)).lists.Keys == s.lists.Keys
    ensures forall f :: f in s.lists ==> Parse(Stored(s)).lists[f] == ReadItems(s.lists[f])
  {
    forall f | f in s.lists ensures Parse(Stored(s)).lists[f] == ReadItems(s.lists[f]) { ListReadBack(s, f); }
  }

  lemma StoredReferences(s: StructuredSummary)
    ensures Get(Stored(s), "evidence") == Arr(ReferenceJsons(s.evidence))
  {
  }

  lemma ReferencesReadBack(s: StructuredSummary)
    requires |s.evidence| <= MAX_ITEMS
    ensures Parse(Stored(s)).evidence == s.evidence
  {
    StoredReferences(s);
    ReferencesBack(s.evidence);
  }

  /** `r` is `s` with every text trimmed and cut once more, and nothing else changed. */
  ghost predicate ReadsBackAs(s: StructuredSummary, r: StructuredSummary) {
    && r.claimEvidence == s.claimEvidence && r.evidence == s.evidence && r.lists.Keys == s.lists.Keys
    && (forall f :: f in s.lists ==> r.lists[f] == ReadItems(s.lists[f]))
    && r.summary == Take(Trim(s.summary), MAX_SUMMARY)
  }

  /** Storing a summary and reading it back keeps every claim, every reference and the
      length of every list. */
  lemma StorageKeepsClaims(s: StructuredSummary)
    requires Storable(s)
    ensures ReadsBackAs(s, Parse(Stored(s)))
  {
    EvidenceReadBack(s);
    ReferencesReadBack(s);
    ListsReadBack(s);
    SummaryReadBack(s);
  }

  predicate ItemsSettled(items: seq<Utf16>) { forall i :: 0 <= i < |items| ==> Settled(items[i], MAX_ITEM_LENGTH) }

  ghost predicate AllSettled(s: StructuredSummary) {
    Settled(s.summary, MAX_SUMMARY) && forall f :: f in s.lists ==> ItemsSettled(s.lists[f])
  }

  lemma ItemsExactIff(items: seq<Utf16>)
    ensures ReadItems(items) == items <==> ItemsSettled(items)
  {
    if ReadItems(items) == items {
      forall i | 0 <= i < |items| ensures Settled(items[i], MAX_ITEM_LENGTH) {
        assert ReadItems(items)[i] == items[i];
      }
    }
  }

  lemma SameSummary(a: StructuredSummary, b: StructuredSummary)
    requires a.claimEvidence == b.claimEvidence && a.evidence == b.evidence && a.summary == b.summary
    requires a.lists.Keys == b.lists.Keys && forall f :: f in a.lists ==> a.lists[f] == b.lists[f]
    ensures a == b
  {
    assert a.lists == b.lists;
  }

  lemma ExactIffSettled(s: StructuredSummary, r: StructuredSummary)
    requires ReadsBackAs(s, r)
    ensures r == s <==> AllSettled(s)
  {
    forall f | f in s.lists ensures ReadItems(s.lists[f]) == s.lists[f] <==> ItemsSettled(s.lists[f]) {
      ItemsExactIff(s.lists[f]);
    }
    if AllSettled(s) { SameSummary(r, s); }
  }

  /** Nothing at all changes if and only if no text does. */
  lemma StorageIsExactIff(s: StructuredSummary)
    requires Storable(s)
    ensures Parse(Stored(s)) == s <==> AllSettled(s)
  {
    StorageKeepsClaims(s);
    ExactIffSettled(s, Parse(Stored(s)));
  }

  // ------------------------------------------------------------- what reading gives

  /** A coerced list: bounded, visible items, and an index into it. */
  ghost predicate GoodList(c: Coerced) {
    && Readable(c.values)
    && (forall i: nat :: i in c.itemIndexes ==> c.itemIndexes[i] < |c.values|)
    && (forall k :: 0 <= k < |c.values| ==>
          && c.values[k] != [] && |c.values[k]| <= MAX_ITEM_LENGTH
          && (Settled(c.values[k], MAX_ITEM_LENGTH) <==> !EndsInSpace(c.values[k])))
  }

  lemma {:induction false} CoercedIsGood(items: seq<Json>, n: nat)
    requires n <= |items|
    ensures GoodList(CoercedItems(items, n))
  {
    if n > 0 {
      CoercedIsGood(items, n - 1);
      if items[n - 1].Str? { ReadTextSettled(items[n - 1].text, MAX_ITEM_LENGTH); }
    }
  }

  lemma ListIsGood(value: Json)
    ensures GoodList(CoercedList(value))
  {
    if value.Arr? { CoercedIsGood(value.items, |value.items|); }
  }

  /** Claims about kept items only, one per item, with bounded segments. */
  ghost predicate GoodClaims(claims: seq<ClaimEvidence>, indexes: Indexes, count: nat) {
    && |claims| <= count && DifferentClaims(claims)
    && forall k :: 0 <= k < |claims| ==> GoodClaim(claims[k], indexes)
  }

  ghost predicate GoodClaim(c: ClaimEvidence, indexes: Indexes) {
    && c.field in indexes && (exists i: nat :: i in indexes[c.field] && indexes[c.field][i] == c.item)
    && c.segments != [] && |c.segments| <= MAX_ITEMS && NoDuplicates(c.segments)
  }

  lemma ClaimIsGood(j: Json, indexes: Indexes)
    ensures ClaimOf(j, indexes).Some? ==> GoodClaim(ClaimOf(j, indexes).value, indexes)
  {
    if Get(j, "segments").Arr? { BoundedFacts(Integers(Get(j, "segments").items)); }
  }

  lemma WithClaimIsGood(claims: seq<ClaimEvidence>, c: ClaimEvidence, indexes: Indexes, count: nat)
    requires GoodClaims(claims, indexes, count) && GoodClaim(c, indexes)
    ensures GoodClaims(WithClaim(claims, c), indexes, count + 1)
  {
    PositionFacts(claims, c);
    var p := PositionOf(claims, c);
    if p.Some? { BoundedFacts(claims[p.value].segments + c.segments); }
  }

  lemma {:induction false} ClaimsAreGood(items: seq<Json>, indexes: Indexes)
    ensures GoodClaims(CoercedClaims(items, indexes), indexes, |items|)
  {
    if items != [] {
      var front, last := items[..|items| - 1], items[|items| - 1];
      ClaimsAreGood(front, indexes);
      ClaimIsGood(last, indexes);
      var c := ClaimOf(last, indexes);
      if c.Some? { WithClaimIsGood(CoercedClaims(front, indexes), c.value, indexes, |front|); }
    }
  }

  /** A good claim of a parsed summary is about an item of it. */
  lemma GoodClaimPoints(raw: Json, c: ClaimEvidence)
    requires raw.Obj? && GoodClaim(c, ItemIndexes(raw))
    ensures PointsAtItem(Parse(raw), c)
  {
    ListFieldsDistinct();
    if c.field == Summary {
      if Get(raw, "summary").Str? { ReadTextSettled(Get(raw, "summary").text, MAX_SUMMARY); }
    } else {
      ListIsGood(Get(raw, Name(c.field)));
    }
  }

  lemma ParsedClaims(raw: Json)
    requires raw.Obj?
    ensures GoodClaims(Parse(raw).claimEvidence, ItemIndexes(raw), MAX_CLAIM_EVIDENCE)
  {
    var value := Get(raw, "claimEvidence");
    if value.Arr? { ClaimsAreGood(Take(value.items, MAX_CLAIM_EVIDENCE), ItemIndexes(raw)); }
  }

  lemma ParsedStorable(raw: Json)
    ensures Storable(Parse(raw))
  {
    var s := Parse(raw);
    if raw.Obj? {
      ParsedClaims(raw);
      forall f | f in s.lists ensures Readable(s.lists[f]) { ListIsGood(Get(raw, Name(f))); }
      forall i | 0 <= i < |s.claimEvidence| ensures PointsAtItem(s, s.claimEvidence[i]) {
        GoodClaimPoints(raw, s.claimEvidence[i]);
      }
    }
  }

  /** Whatever the model returned, what is read of it is within all bounds. */
  lemma ParsedWithinBounds(raw: Json)
    ensures WithinBounds(Parse(raw))
  {
    var s := Parse(raw);
    ParsedStorable(raw);
    if raw.Obj? {
      forall f | f in s.lists ensures ShortItems(s.lists[f]) { ListIsGood(Get(raw, Name(f))); }
    }
  }

  ghost predicate NothingEndsInSpace(s: StructuredSummary) {
    && !EndsInSpace(s.summary)
    && forall f, i :: f in s.lists && 0 <= i < |s.lists[f]| ==> !EndsInSpace(s.lists[f][i])
  }

  /** Reading a stored summary again changes nothing but texts that were cut right after
      white space, and it does change those. */
  lemma RereadingIsExactIff(raw: Json)
    ensures Parse(Stored(Parse(raw))).claimEvidence == Parse(raw).claimEvidence
    ensures Parse(Stored(Parse(raw))) == Parse(raw) <==> NothingEndsInSpace(Parse(raw))
  {
    ParsedStorable(raw);
    StorageKeepsClaims(Parse(raw));
    StorageIsExactIff(Parse(raw));
    SettledIffVisible(raw);
  }

  lemma SettledIffVisible(raw: Json)
    ensures AllSettled(Parse(raw)) <==> NothingEndsInSpace(Parse(raw))
  {
    var s := Parse(raw);
    if raw.Obj? {
      if Get(raw, "summary").Str? { ReadTextSettled(Get(raw, "summary").text, MAX_SUMMARY); }
      forall f, i | f in s.lists && 0 <= i < |s.lists[f]|
        ensures Settled(s.lists[f][i], MAX_ITEM_LENGTH) <==> !EndsInSpace(s.lists[f][i])
      {
        ListIsGood(Get(raw, Name(f)));
      }
    }
  }

  /** A summary whose 4000th code unit is a space before more text. */
  lemma RereadingMayTrim() returns (raw: Json)
    ensures Parse(Stored(Parse(raw))) != Parse(raw)
  {
    var a: CodeUnit := 0x61;
    var text := seq(MAX_SUMMARY - 1, _ => a) + [0x20, a];
    raw := Obj(map["summary" := Str(text)]);
    assert text[0] == a && text[|text| - 1] == a && !IsSpace(a);
    TrimVisible(text);
    assert Trim(text) == text;
    assert Parse(raw).summary == text[..MAX_SUMMARY];
    assert text[..MAX_SUMMARY][MAX_SUMMARY - 1] == 0x20;
    assert EndsInSpace(Parse(raw).summary);
    RereadingIsExactIff(raw);
  }
}

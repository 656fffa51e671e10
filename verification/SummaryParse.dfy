/** Reading a structured summary from JSON (src/llm/schema.ts:137-283): what the
    validation lets through, and that reading a stored summary again keeps its claims. */
module SummaryParse {

  import opened Common
  import opened SummarySchema

  datatype Json =
    | Null
    | Bool(value: bool)
    | Number(number: real)
    | Str(text: Utf16)
    | Arr(items: seq<Json>)
    | Obj(fields: map<string, Json>)

  const MAX_ITEM_LENGTH := 500
  const MAX_CLAIM_EVIDENCE := 1 + |LIST_FIELDS| * MAX_ITEMS
  const ALL_FIELDS: seq<ClaimField> := [Summary] + LIST_FIELDS

  function Name(f: ClaimField): string {
    match f
    case Summary => "summary"
    case Decisions => "decisions"
    case Tasks => "tasks"
    case Commitments => "commitments"
    case People => "people"
    case Places => "places"
    case Expenses => "expenses"
    case Ideas => "ideas"
    case Questions => "questions"
    case Uncertainties => "uncertainties"
  }

  /** A name as JSON text. */
  function Units(s: string): Utf16 {
    seq(|s|, i requires 0 <= i < |s| => (s[i] as int % 0x1_0000) as CodeUnit)
  }

  function FieldOf(text: Utf16, among: seq<ClaimField>): Option<ClaimField> {
    if among == [] then None
    else if Units(Name(among[0])) == text then Some(among[0])
    else FieldOf(text, among[1..])
  }

  function Get(raw: Json, name: string): Json {
    if raw.Obj? && name in raw.fields then raw.fields[name] else Null
  }

  function IntegerOf(j: Json): Option<nat> {
    if j.Number? && j.number >= 0.0 && j.number.Floor as real == j.number then Some(j.number.Floor) else None
  }

  // --------------------------------------------------------------------- list items

  /** The text an array element is kept as, if it is kept. */
  function ItemOf(j: Json): Utf16 { if j.Str? then Take(Trim(j.text), MAX_ITEM_LENGTH) else [] }

  datatype Coerced = Coerced(values: seq<Utf16>, itemIndexes: map<nat, nat>)

  /** The first `n` elements, coerced. */
  function CoercedItems(items: seq<Json>, n: nat): Coerced
    requires n <= |items|
  {
    if n == 0 then Coerced([], map[])
    else
      var c, item := CoercedItems(items, n - 1), ItemOf(items[n - 1]);
      if item == [] || |c.values| >= MAX_ITEMS then c
      else Coerced(c.values + [item], c.itemIndexes[n - 1 := |c.values|])
  }

  function CoercedList(value: Json): Coerced {
    if value.Arr? then CoercedItems(value.items, |value.items|) else Coerced([], map[])
  }

  lemma {:induction false} FullStays(items: seq<Json>, k: nat, n: nat)
    requires k <= n <= |items| && |CoercedItems(items, k).values| >= MAX_ITEMS
    ensures CoercedItems(items, n) == CoercedItems(items, k)
  {
    if k < n { FullStays(items, k, n - 1); }
  }

  method CoerceList(value: Json) returns (r: Coerced)
    ensures r == CoercedList(value)
  {
    r := Coerced([], map[]);
    if !value.Arr? {
      return;
    }
    for n := 0 to |value.items|
      invariant r == CoercedItems(value.items, n)
    {
      var candidate := value.items[n];
      if !candidate.Str? {
        continue;
      }
      var item := Take(Trim(candidate.text), MAX_ITEM_LENGTH);
      if |item| == 0 {
        continue;
      }
      if |r.values| >= MAX_ITEMS {
        FullStays(value.items, n, |value.items|);
        return;
      }
      r := Coerced(r.values + [item], r.itemIndexes[n := |r.values|]);
    }
  }

  // ------------------------------------------------------------------------- claims

  function Integers(items: seq<Json>): seq<nat> {
    if items == [] then []
    else
      Integers(items[..|items| - 1]) +
      match IntegerOf(items[|items| - 1]) case Some(n) => [n] case None => []
  }

  type Indexes = map<ClaimField, map<nat, nat>>

  /** The claim a candidate stands for, under its item's output index. */
  function ClaimOf(j: Json, indexes: Indexes): Option<ClaimEvidence> {
    var field := if Get(j, "field").Str? then FieldOf(Get(j, "field").text, ALL_FIELDS) else None;
    var item := IntegerOf(Get(j, "item"));
    if field.None? || item.None? || field.value !in indexes || item.value !in indexes[field.value] then None
    else
      var given := Get(j, "segments");
      var segments := if given.Arr? then Bounded(Integers(given.items)) else [];
      if segments == [] then None
      else Some(ClaimEvidence(field.value, indexes[field.value][item.value], segments))
  }

  function PositionOf(claims: seq<ClaimEvidence>, c: ClaimEvidence): Option<nat> {
    if claims == [] then None
    else if claims[|claims| - 1].field == c.field && claims[|claims| - 1].item == c.item then Some(|claims| - 1)
    else PositionOf(claims[..|claims| - 1], c)
  }

  lemma {:induction false} PositionFacts(claims: seq<ClaimEvidence>, c: ClaimEvidence)
    ensures
      var p := PositionOf(claims, c);
      if p.Some? then p.value < |claims| && claims[p.value].field == c.field && claims[p.value].item == c.item
      else forall k :: 0 <= k < |claims| ==> !(claims[k].field == c.field && claims[k].item == c.item)
  {
    if claims != [] { PositionFacts(claims[..|claims| - 1], c); }
  }

  /** A second entry for a claim adds its segments to the first. */
  function WithClaim(claims: seq<ClaimEvidence>, c: ClaimEvidence): seq<ClaimEvidence> {
    PositionFacts(claims, c);
    match PositionOf(claims, c)
    case None => claims + [c]
    case Some(p) => claims[p := claims[p].(segments := Bounded(claims[p].segments + c.segments))]
  }

  function CoercedClaims(items: seq<Json>, indexes: Indexes): seq<ClaimEvidence> {
    if items == [] then []
    else
      var claims := CoercedClaims(items[..|items| - 1], indexes);
      match ClaimOf(items[|items| - 1], indexes)
      case None => claims
      case Some(c) => WithClaim(claims, c)
  }

  function ClaimList(value: Json, indexes: Indexes): seq<ClaimEvidence> {
    if value.Arr? then CoercedClaims(Take(value.items, MAX_CLAIM_EVIDENCE), indexes) else []
  }

  method CoerceClaimEvidence(value: Json, indexes: Indexes) returns (claims: seq<ClaimEvidence>)
    ensures claims == ClaimList(value, indexes)
  {
    claims := [];
    if !value.Arr? {
      return;
    }
    var candidates := Take(value.items, MAX_CLAIM_EVIDENCE);
    for n := 0 to |candidates|
      invariant claims == CoercedClaims(candidates[..n], indexes)
    {
      assert candidates[..n + 1][..n] == candidates[..n];
      var c := ClaimOf(candidates[n], indexes);
      if c.None? {
        continue;
      }
      claims := WithClaim(claims, c.value);
    }
    assert candidates[..|candidates|] == candidates;
  }

  // -------------------------------------------------------------------- the summary

  function SummaryText(raw: Json): Utf16 {
    if Get(raw, "summary").Str? then Take(Trim(Get(raw, "summary").text), MAX_SUMMARY) else []
  }

  function ItemIndexes(raw: Json): Indexes {
    map f: ClaimField | f in ALL_FIELDS ::
      if f == Summary then (if SummaryText(raw) == [] then map[] else map[0 := 0])
      else CoercedList(Get(raw, Name(f))).itemIndexes
  }

  function SegmentsOf(items: seq<Json>): seq<nat> {
    if items == [] then []
    else
      SegmentsOf(items[..|items| - 1]) +
      match IntegerOf(Get(items[|items| - 1], "segment")) case Some(n) => [n] case None => []
  }

  function Parse(raw: Json): StructuredSummary {
    if !raw.Obj? then EMPTY_SUMMARY
    else
      StructuredSummary(
        SummaryText(raw),
        map f | f in LIST_FIELDS :: CoercedList(Get(raw, Name(f))).values,
        ClaimList(Get(raw, "claimEvidence"), ItemIndexes(raw)),
        if Get(raw, "evidence").Arr? then Take(SegmentsOf(Get(raw, "evidence").items), MAX_ITEMS) else [])
  }

  // ------------------------------------------------------- references into a revision

  function Below(segments: seq<nat>, limit: nat): seq<nat> {
    if segments == [] then []
    else
      Below(segments[..|segments| - 1], limit) +
      if segments[|segments| - 1] < limit then [segments[|segments| - 1]] else []
  }

  function BoundedEvidence(claims: seq<ClaimEvidence>, limit: nat): seq<ClaimEvidence> {
    if claims == [] then []
    else
      var last := claims[|claims| - 1];
      var kept := Below(last.segments, limit);
      BoundedEvidence(claims[..|claims| - 1], limit) + if kept == [] then [] else [last.(segments := kept)]
  }

  /** `boundClaimEvidence`: references to segments the transcript does not have go. */
  function BoundClaimEvidence(s: StructuredSummary, limit: nat): StructuredSummary {
    s.(claimEvidence := BoundedEvidence(s.claimEvidence, limit), evidence := Below(s.evidence, limit))
  }

  lemma {:induction false} BelowFacts(segments: seq<nat>, limit: nat)
    ensures forall x :: x in Below(segments, limit) <==> x in segments && x < limit
    ensures |Below(segments, limit)| <= |segments|
  {
    if segments != [] {
      BelowFacts(segments[..|segments| - 1], limit);
      assert segments == segments[..|segments| - 1] + [segments[|segments| - 1]];
    }
  }

  lemma {:induction false} BelowDiffers(segments: seq<nat>, limit: nat)
    requires NoDuplicates(segments)
    ensures NoDuplicates(Below(segments, limit))
  {
    if segments != [] {
      var front, last := segments[..|segments| - 1], segments[|segments| - 1];
      BelowDiffers(front, limit);
      BelowFacts(front, limit);
      assert forall j :: 0 <= j < |front| ==> front[j] == segments[j] != last;
      assert last !in Below(front, limit);
    }
  }

  ghost predicate BoundedFrom(given: ClaimEvidence, limit: nat, c: ClaimEvidence) {
    c == given.(segments := Below(given.segments, limit)) && c.segments != []
  }

  /** Every claim left cites those segments of a claim given that are there. */
  lemma {:induction false} BoundedEvidenceFacts(claims: seq<ClaimEvidence>, limit: nat, c: ClaimEvidence)
    requires c in BoundedEvidence(claims, limit)
    ensures exists k :: 0 <= k < |claims| && BoundedFrom(claims[k], limit, c)
  {
    var front, last := claims[..|claims| - 1], claims[|claims| - 1];
    if c in BoundedEvidence(front, limit) {
      BoundedEvidenceFacts(front, limit, c);
      var k :| 0 <= k < |front| && BoundedFrom(front[k], limit, c);
      assert claims[k] == front[k];
    } else {
      assert BoundedFrom(claims[|claims| - 1], limit, c);
    }
  }
}

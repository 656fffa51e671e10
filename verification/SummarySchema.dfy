/** The structured summary (src/llm/schema.ts) and the list operations its code shares.
    Summary text is a sequence of UTF-16 code units, as the source slices it. */
module SummarySchema {

  import opened Common

  newtype CodeUnit = u: int | 0 <= u < 0x1_0000

  type Utf16 = seq<CodeUnit>

  datatype ClaimField =
    | Summary
    | Decisions
    | Tasks
    | Commitments
    | People
    | Places
    | Expenses
    | Ideas
    | Questions
    | Uncertainties

  const LIST_FIELDS: seq<ClaimField> :=
    [Decisions, Tasks, Commitments, People, Places, Expenses, Ideas, Questions, Uncertainties]

  datatype ClaimEvidence = ClaimEvidence(field: ClaimField, item: nat, segments: seq<nat>)

  /** `lists` has an entry for every list field. */
  datatype StructuredSummary = StructuredSummary(
    summary: Utf16, lists: map<ClaimField, seq<Utf16>>, claimEvidence: seq<ClaimEvidence>, evidence: seq<nat>)

  predicate HasLists(s: StructuredSummary) { forall f :: f in LIST_FIELDS ==> f in s.lists }

  const EMPTY_SUMMARY := StructuredSummary([], map f | f in LIST_FIELDS :: [], [], [])

  const MAX_ITEMS := 20
  const MAX_SUMMARY := 4000

  lemma ListFieldsDistinct()
    ensures forall f: ClaimField :: f in LIST_FIELDS <==> f != Summary
    ensures forall j, k :: 0 <= j < k < |LIST_FIELDS| ==> LIST_FIELDS[j] != LIST_FIELDS[k]
  {
    forall f: ClaimField ensures f in LIST_FIELDS <==> f != Summary {
      assert LIST_FIELDS[0] == Decisions && LIST_FIELDS[1] == Tasks && LIST_FIELDS[2] == Commitments;
      assert LIST_FIELDS[3] == People && LIST_FIELDS[4] == Places && LIST_FIELDS[5] == Expenses;
      assert LIST_FIELDS[6] == Ideas && LIST_FIELDS[7] == Questions && LIST_FIELDS[8] == Uncertainties;
    }
  }

  // ------------------------------------------------------------------ list operations

  /** The white space `trim` removes. */
  predicate IsSpace(c: CodeUnit) {
    || 0x09 <= c <= 0x0D || c == 0x20 || c == 0xA0 || c == 0x1680 || 0x2000 <= c <= 0x200A
    || c == 0x2028 || c == 0x2029 || c == 0x202F || c == 0x205F || c == 0x3000 || c == 0xFEFF
  }

  function TrimStart(s: Utf16): Utf16 {
    if s != [] && IsSpace(s[0]) then TrimStart(s[1..]) else s
  }

  function TrimEnd(s: Utf16): Utf16 {
    if s != [] && IsSpace(s[|s| - 1]) then TrimEnd(s[..|s| - 1]) else s
  }

  function Trim(s: Utf16): Utf16 { TrimEnd(TrimStart(s)) }

  function Take<T>(s: seq<T>, n: nat): seq<T> { if |s| <= n then s else s[..n] }

  /** First occurrences, in order. */
  function Distinct(s: seq<nat>): seq<nat> {
    if s == [] then []
    else
      var front := Distinct(s[..|s| - 1]);
      if s[|s| - 1] in front then front else front + [s[|s| - 1]]
  }

  /** One claim per item at most. */
  predicate DifferentClaims(claims: seq<ClaimEvidence>) {
    forall j, k :: 0 <= j < k < |claims| ==> !(claims[j].field == claims[k].field && claims[j].item == claims[k].item)
  }

  lemma {:induction false} DistinctFacts(s: seq<nat>)
    ensures NoDuplicates(Distinct(s)) && forall x :: x in Distinct(s) <==> x in s
    ensures s != [] ==> Distinct(s) != []
  {
    if s != [] {
      DistinctFacts(s[..|s| - 1]);
      assert s == s[..|s| - 1] + [s[|s| - 1]];
    }
  }

  lemma {:induction false} DistinctOfDistinct(s: seq<nat>)
    requires NoDuplicates(s)
    ensures Distinct(s) == s
  {
    if s != [] {
      DistinctOfDistinct(s[..|s| - 1]);
      assert s == s[..|s| - 1] + [s[|s| - 1]];
    }
  }

  /** `[...new Set(segments)].slice(0, 20)`: nothing is lost unless twenty are kept. */
  function Bounded(segments: seq<nat>): seq<nat> { Take(Distinct(segments), MAX_ITEMS) }

  lemma BoundedFacts(segments: seq<nat>)
    ensures NoDuplicates(Bounded(segments)) && |Bounded(segments)| <= MAX_ITEMS
    ensures forall x :: x in Bounded(segments) ==> x in segments
    ensures forall x :: x in segments ==> x in Bounded(segments) || |Bounded(segments)| == MAX_ITEMS
    ensures segments != [] ==> Bounded(segments) != []
  {
    DistinctFacts(segments);
  }

  /** A first segment list is not shortened by adding to it. */
  lemma {:induction false} DistinctGrows(a: seq<nat>, b: seq<nat>)
    ensures |Distinct(a)| <= |Distinct(a + b)| && Distinct(a) <= Distinct(a + b)
  {
    if b == [] {
      assert a + b == a;
    } else {
      assert (a + b)[..|a + b| - 1] == a + b[..|b| - 1];
      DistinctGrows(a, b[..|b| - 1]);
    }
  }

  lemma BoundedStaysFull(a: seq<nat>, b: seq<nat>)
    requires NoDuplicates(a) && |a| == MAX_ITEMS
    ensures |Bounded(a + b)| == MAX_ITEMS
  {
    DistinctGrows(a, b);
    DistinctOfDistinct(a);
  }
}

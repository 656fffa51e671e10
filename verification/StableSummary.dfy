/** Summaries that are written are read back equal (src/jobs/pipeline.ts:441-488): every
    text that reaches the reader is within the limits, so reading only trims it, once. */
module StableSummary {

  import opened Common
  import opened SummarySchema
  import opened SummaryParse
  import opened SummaryStorage

  // ------------------------------------------------------------- texts within limits

  predicate ShortTexts(items: seq<Json>) {
    forall i :: 0 <= i < |items| && items[i].Str? ==> |items[i].text| <= MAX_ITEM_LENGTH
  }

  predicate ShortList(value: Json) { value.Arr? ==> ShortTexts(value.items) }

  /** No text of it is over its limit. */
  ghost predicate ShortJson(raw: Json) {
    && (Get(raw, Name(Summary)).Str? ==> |Get(raw, Name(Summary)).text| <= MAX_SUMMARY)
    && forall f :: f in LIST_FIELDS ==> ShortList(Get(raw, Name(f)))
  }

  lemma {:induction false} TrimEndVisible(s: Utf16)
    ensures !EndsInSpace(TrimEnd(s))
  {
    if s != [] && IsSpace(s[|s| - 1]) { TrimEndVisible(s[..|s| - 1]); }
  }

  /** Reading a short text does not cut it. */
  lemma ShortTextSettled(raw: Utf16, bound: nat)
    requires 0 < bound && |raw| <= bound
    ensures Take(Trim(raw), bound) == Trim(raw) && Settled(Trim(raw), bound) && !EndsInSpace(Trim(raw))
  {
    TrimFacts(raw);
    TrimEndVisible(TrimStart(raw));
    ReadTextSettled(raw, bound);
  }

  predicate NoneEndsInSpace(items: seq<Utf16>) { forall i :: 0 <= i < |items| ==> !EndsInSpace(items[i]) }

  lemma {:induction false} ShortItemsRead(items: seq<Json>, n: nat)
    requires n <= |items| && ShortTexts(items)
    ensures NoneEndsInSpace(CoercedItems(items, n).values)
  {
    if n > 0 {
      ShortItemsRead(items, n - 1);
      if items[n - 1].Str? { ShortTextSettled(items[n - 1].text, MAX_ITEM_LENGTH); }
    }
  }

  lemma ShortListRead(value: Json)
    requires ShortList(value)
    ensures NoneEndsInSpace(CoercedList(value).values)
  {
    if value.Arr? { ShortItemsRead(value.items, |value.items|); }
  }

  lemma ShortSummaryRead(raw: Json)
    requires ShortJson(raw)
    ensures !EndsInSpace(SummaryText(raw))
  {
    if Get(raw, "summary").Str? { ShortTextSettled(Get(raw, "summary").text, MAX_SUMMARY); }
  }

  /** What is read of text within the limits is read again unchanged. */
  lemma RereadingShortIsExact(raw: Json)
    requires ShortJson(raw)
    ensures Parse(Stored(Parse(raw))) == Parse(raw) && AllSettled(Parse(raw))
  {
    var s := Parse(raw);
    ShortSummaryRead(raw);
    forall f, i | f in s.lists && 0 <= i < |s.lists[f]| ensures !EndsInSpace(s.lists[f][i]) {
      if raw.Obj? { ShortListRead(Get(raw, Name(f))); }
    }
    RereadingIsExactIff(raw);
    SettledIffVisible(raw);
  }

  // -------------------------------------------------------------------- what is written

  lemma StoredSummary(s: StructuredSummary)
    ensures Get(Stored(s), Name(Summary)) == Str(s.summary)
  {
  }

  lemma StoredListIsShort(s: StructuredSummary, f: ClaimField)
    requires f in LIST_FIELDS && f in s.lists && ShortItems(s.lists[f])
    ensures ShortList(Get(Stored(s), Name(f)))
  {
    StoredFields(s, f);
  }

  lemma StoredIsShort(s: StructuredSummary)
    requires WithinBounds(s)
    ensures ShortJson(Stored(s))
  {
    StoredSummary(s);
    forall f | f in LIST_FIELDS ensures ShortList(Get(Stored(s), Name(f))) {
      assert f in s.lists.Keys;
      StoredListIsShort(s, f);
    }
  }

  /** What is written for a summary that was made for a transcript of `count` segments. */
  function Written(s: StructuredSummary, count: nat): StructuredSummary {
    BoundClaimEvidence(Parse(Stored(s)), count)
  }

  lemma {:induction false} FewerClaims(claims: seq<ClaimEvidence>, count: nat)
    requires DifferentClaims(claims)
    ensures DifferentClaims(BoundedEvidence(claims, count)) && |BoundedEvidence(claims, count)| <= |claims|
  {
    if claims != [] {
      var front, last := claims[..|claims| - 1], claims[|claims| - 1];
      FewerClaims(front, count);
      var kept := BoundedEvidence(front, count);
      forall j | 0 <= j < |kept| ensures !(kept[j].field == last.field && kept[j].item == last.item) {
        BoundedEvidenceFacts(front, count, kept[j]);
        var k :| 0 <= k < |front| && BoundedFrom(front[k], count, kept[j]);
        assert claims[k] == front[k];
      }
    }
  }

  lemma BoundedPoints(s: StructuredSummary, count: nat, c: ClaimEvidence)
    requires Storable(s) && c in BoundClaimEvidence(s, count).claimEvidence
    ensures PointsAtItem(BoundClaimEvidence(s, count), c)
  {
    BoundedEvidenceFacts(s.claimEvidence, count, c);
    var k :| 0 <= k < |s.claimEvidence| && BoundedFrom(s.claimEvidence[k], count, c);
    assert PointsAtItem(s, s.claimEvidence[k]);
    BelowFacts(s.claimEvidence[k].segments, count);
    BelowDiffers(s.claimEvidence[k].segments, count);
  }

  /** Dropping references keeps a summary within bounds and its texts as they are. */
  lemma BoundedWithinBounds(s: StructuredSummary, count: nat)
    requires WithinBounds(s)
    ensures WithinBounds(BoundClaimEvidence(s, count))
    ensures AllSettled(s) ==> AllSettled(BoundClaimEvidence(s, count))
  {
    var r := BoundClaimEvidence(s, count);
    FewerClaims(s.claimEvidence, count);
    BelowFacts(s.evidence, count);
    forall i | 0 <= i < |r.claimEvidence| ensures PointsAtItem(r, r.claimEvidence[i]) {
      BoundedPoints(s, count, r.claimEvidence[i]);
    }
  }

  lemma {:induction false} BelowAgain(segments: seq<nat>, count: nat)
    requires forall x :: x in segments ==> x < count
    ensures Below(segments, count) == segments
  {
    if segments != [] {
      var front, last := segments[..|segments| - 1], segments[|segments| - 1];
      assert segments == front + [last] && last in segments;
      forall x | x in front ensures x < count { assert x in segments; }
      BelowAgain(front, count);
    }
  }

  lemma {:induction false} BoundedAgain(claims: seq<ClaimEvidence>, count: nat)
    requires forall c :: c in claims ==> c.segments != [] && forall x :: x in c.segments ==> x < count
    ensures BoundedEvidence(claims, count) == claims
  {
    if claims != [] {
      var front, last := claims[..|claims| - 1], claims[|claims| - 1];
      assert claims == front + [last] && last in claims;
      BoundedAgain(front, count);
      BelowAgain(last.segments, count);
    }
  }

  /** Dropping the same references again changes nothing. */
  lemma BoundingIsIdempotent(s: StructuredSummary, count: nat)
    ensures BoundClaimEvidence(BoundClaimEvidence(s, count), count) == BoundClaimEvidence(s, count)
  {
    var r := BoundClaimEvidence(s, count);
    forall c | c in r.claimEvidence
      ensures c.segments != [] && forall x :: x in c.segments ==> x < count
    {
      BoundedEvidenceFacts(s.claimEvidence, count, c);
      var k :| 0 <= k < |s.claimEvidence| && BoundedFrom(s.claimEvidence[k], count, c);
      BelowFacts(s.claimEvidence[k].segments, count);
    }
    BoundedAgain(r.claimEvidence, count);
    BelowFacts(s.evidence, count);
    BelowAgain(r.evidence, count);
  }

  /** Whatever is written of a summary within bounds is read back equal, and bounding its
      references once more, as the digest does, leaves it as it is. */
  lemma WrittenReadsBack(s: StructuredSummary, count: nat)
    requires WithinBounds(s)
    ensures var w := Written(s, count);
      && WithinBounds(w) && AllSettled(w) && Parse(Stored(w)) == w && BoundClaimEvidence(Parse(Stored(w)), count) == w
  {
    var read := Parse(Stored(s));
    StoredIsShort(s);
    RereadingShortIsExact(Stored(s));
    ParsedWithinBounds(Stored(s));
    BoundedWithinBounds(read, count);
    StorageIsExactIff(Written(s, count));
    BoundingIsIdempotent(read, count);
  }
}

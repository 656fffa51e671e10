/** Claim provenance survives the daily digest (src/digest/daily.ts:144-241 and 537-846):
    every digest that is built is stored and read back equal, exactly when the day's own
    identifiers, times and cited segments are ones the reader admits. */
module DigestRoundTrip {

  import opened Common
  import opened SummarySchema
  import opened SummaryParse
  import opened SummaryStorage
  import opened StableSummary
  import opened ClaimSource
  import opened ClaimExcerpt
  import opened DigestModel
  import opened DigestStorage
  import opened DigestBuild

  // ------------------------------------------------------------------ what is quoted

  /** Splitting a rendered window into graphemes again finds no more of them than it was
      joined from. */
  ghost predicate ClustersJoin(p: Platform, g: seq<Grapheme>) {
    forall left: nat, right: nat :: left <= right <= |g| ==> WindowClusters(p, g, left, right)
  }

  ghost predicate WindowClusters(p: Platform, g: seq<Grapheme>, left: nat, right: nat)
    requires left <= right <= |g|
  {
    p.clusters(Encode(Render(g, left, right)))
      <= right - left + (if left > 0 then 1 else 0) + (if right < |g| then 1 else 0)
  }

  ghost predicate AllClustersJoin(p: Platform, transcript: seq<Document>) {
    forall k :: 0 <= k < |transcript| ==> Segmented(transcript[k]) && ClustersJoin(p, transcript[k].graphemes)
  }

  lemma WindowLength(n: nat, first: nat, after: nat)
    ensures FirstRight(n, first, after) - FirstLeft(n, first, after) <= MAX_GRAPHEMES
  {
  }

  lemma JoinStarts(g: seq<Grapheme>, left: nat, right: nat)
    requires Tiles(g) && left < right <= |g|
    ensures Join(g[left..right]) != []
  {
    assert g[left..right][|g[left..right]| - 1] == g[right - 1];
  }

  lemma {:induction false} EncodeNotEmpty(s: string)
    requires s != []
    ensures Encode(s) != []
  {
  }

  lemma RenderNotEmpty(g: seq<Grapheme>, left: nat, right: nat)
    requires Tiles(g) && left < right <= |g|
    ensures Render(g, left, right) != []
  {
    JoinStarts(g, left, right);
  }

  /** An excerpt is within every bound the reader puts on excerpts. */
  lemma WindowIsExcerpt(p: Platform, g: seq<Grapheme>, first: nat, after: nat, left: nat, right: nat)
    requires Tiles(g) && ClustersJoin(p, g) && FairWindow(g, first, after, left, right)
    ensures ExcerptOk(p, Encode(Render(g, left, right)))
  {
    RenderNotEmpty(g, left, right);
    EncodeNotEmpty(Render(g, left, right));
    EncodedEscape(Render(g, left, right));
    WindowLength(|g|, first, after);
    assert WindowClusters(p, g, left, right);
  }

  lemma QuotationIsExcerpt(p: Platform, claim: seq<WordToken>, d: Document, q: Quotation)
    requires Segmented(d) && ClustersJoin(p, d.graphemes) && Localizes(claim, d, Some(q))
    ensures ExcerptOk(p, Encode(q.excerpt))
  {
    var first, after, left, right :| Quotes(d.graphemes, q, first, after, left, right);
    WindowIsExcerpt(p, d.graphemes, first, after, left, right);
  }

  lemma ChosenIsExcerpt(
    p: Platform, claim: seq<WordToken>, transcript: seq<Document>, cited: seq<nat>, outcomes: seq<Option<Quotation>>,
    at: nat)
    requires AllClustersJoin(p, transcript) && Outcomes(claim, transcript, cited, outcomes) && Chosen(outcomes, at)
    ensures cited[at] in cited && ExcerptOk(p, Encode(outcomes[at].value.excerpt))
  {
    assert OutcomeOf(claim, transcript, cited[at], outcomes[at]);
    QuotationIsExcerpt(p, claim, transcript[cited[at]], outcomes[at].value);
  }

  /** A resolution repeats the cited segments and quotes one of them, within bounds. */
  lemma ResolutionQuotesCited(
    p: Platform, claim: seq<WordToken>, transcript: seq<Document>, cited: seq<nat>, r: Resolution)
    requires AllClustersJoin(p, transcript) && ResolvedFrom(claim, transcript, cited, r)
    ensures r.Missing? <==> cited == []
    ensures !r.Missing? ==> r.segments == cited
    ensures r.Localized? ==> r.segment in cited && ExcerptOk(p, Encode(r.excerpt))
  {
    var outcomes: seq<Option<Quotation>> :|
      Outcomes(claim, transcript, cited, outcomes) && Resolves(transcript, cited, outcomes, r);
    if r.Localized? {
      var at: nat :| Chosen(outcomes, at) && r.segment == cited[at] && r.excerpt == outcomes[at].value.excerpt;
      ChosenIsExcerpt(p, claim, transcript, cited, outcomes, at);
    }
  }

  lemma ResolutionIsSource(
    p: Platform, claim: seq<WordToken>, transcript: seq<Document>, cited: seq<nat>, r: Resolution)
    requires AllClustersJoin(p, transcript) && ResolvedFrom(claim, transcript, cited, r)
    requires |cited| <= MAX_ITEMS && NoDuplicates(cited)
    ensures SourceOk(p, SourceOf(r)) <==> forall x :: x in cited ==> x < MAX_SEGMENT
  {
    ResolutionQuotesCited(p, claim, transcript, cited, r);
    QuotedIsSource(p, cited, r);
  }

  lemma QuotedIsSource(p: Platform, cited: seq<nat>, r: Resolution)
    requires |cited| <= MAX_ITEMS && NoDuplicates(cited)
    requires (r.Missing? <==> cited == []) && (!r.Missing? ==> r.segments == cited)
    requires r.Localized? ==> r.segment in cited && ExcerptOk(p, Encode(r.excerpt))
    ensures SourceOk(p, SourceOf(r)) <==> forall x :: x in cited ==> x < MAX_SEGMENT
  {
    SegmentsOkIff(cited);
  }

  lemma SegmentsOkIff(cited: seq<nat>)
    requires |cited| <= MAX_ITEMS && NoDuplicates(cited)
    ensures SegmentsOk(cited) <==> forall x :: x in cited ==> x < MAX_SEGMENT
  {
    if SegmentsOk(cited) {
      forall x | x in cited ensures x < MAX_SEGMENT { var k :| 0 <= k < |cited| && cited[k] == x; }
    }
    assert forall k :: 0 <= k < |cited| ==> cited[k] in cited;
  }

  // -------------------------------------------------------------------- what is cited

  lemma {:induction false} CitedFrom(evidence: seq<ClaimEvidence>, field: ClaimField, item: nat)
    ensures Cited(evidence, field, item) != [] ==>
      exists c :: c in evidence && c.segments == Cited(evidence, field, item)
  {
    if evidence != [] && !(evidence[0].field == field && evidence[0].item == item) {
      CitedFrom(evidence[1..], field, item);
      if Cited(evidence, field, item) != [] {
        var c :| c in evidence[1..] && c.segments == Cited(evidence[1..], field, item);
        assert c in evidence;
      }
    }
  }

  /** What a claim of a stored summary cites is short and names each segment once. */
  lemma CitedIsBounded(row: DayRow, field: ClaimField, item: nat)
    ensures
      var cited := Cited(SummaryOf(row).claimEvidence, field, item);
      |cited| <= MAX_ITEMS && NoDuplicates(cited)
  {
    var evidence := SummaryOf(row).claimEvidence;
    CitedFrom(evidence, field, item);
    if Cited(evidence, field, item) != [] {
      var c :| c in evidence && c.segments == Cited(evidence, field, item);
      EvidenceIsBounded(row, c);
    }
  }

  lemma EvidenceIsBounded(row: DayRow, c: ClaimEvidence)
    requires c in SummaryOf(row).claimEvidence
    ensures |c.segments| <= MAX_ITEMS && NoDuplicates(c.segments)
  {
    var parsed, limit := Parse(row.summary.value.payload), |row.transcript|;
    ParsedStorable(row.summary.value.payload);
    BoundedEvidenceFacts(parsed.claimEvidence, limit, c);
    var k :| 0 <= k < |parsed.claimEvidence| && BoundedFrom(parsed.claimEvidence[k], limit, c);
    assert PointsAtItem(parsed, parsed.claimEvidence[k]);
    BelowFacts(parsed.claimEvidence[k].segments, limit);
    BelowDiffers(parsed.claimEvidence[k].segments, limit);
  }

  // ---------------------------------------------------------------------- where it is

  lemma ListsAreShort(row: DayRow, f: ClaimField)
    ensures |ItemsOf(SummaryOf(row), f)| <= MAX_ITEMS
  {
    if row.summary.Some? {
      ParsedStorable(row.summary.value.payload);
      assert SummaryOf(row).lists == Parse(row.summary.value.payload).lists;
    } else {
      assert SummaryOf(row) == EMPTY_SUMMARY;
    }
  }

  lemma CoordinatesInLists(row: DigestRow, k: nat)
    requires k < |Coordinates(row)|
    requires |row.decisions| <= MAX_ITEMS && |row.tasks| <= MAX_ITEMS && |row.questions| <= MAX_ITEMS
    ensures Coordinates(row)[k].0 in {Summary, Decisions, Tasks, Questions} && Coordinates(row)[k].1 < MAX_ITEMS
  {
  }

  lemma CoordinatesOk(row: DayRow, k: nat)
    requires k < |Coordinates(BaseOf(row))|
    ensures Coordinates(BaseOf(row))[k].0 in DIGEST_FIELDS && Coordinates(BaseOf(row))[k].1 < MAX_ITEMS
  {
    ListsAreShort(row, Decisions);
    ListsAreShort(row, Tasks);
    ListsAreShort(row, Questions);
    CoordinatesInLists(BaseOf(row), k);
    AmongDigestFields();
  }

  lemma AmongDigestFields()
    ensures Summary in DIGEST_FIELDS && Decisions in DIGEST_FIELDS && Tasks in DIGEST_FIELDS
      && Questions in DIGEST_FIELDS
  {
    assert DIGEST_FIELDS[0] == Summary && DIGEST_FIELDS[1] == Decisions && DIGEST_FIELDS[2] == Tasks
      && DIGEST_FIELDS[3] == Questions;
  }

  // ----------------------------------------------------------------------- one row

  /** Every segment cited for a visible claim is one the reader admits. */
  ghost predicate WithinReach(row: DayRow, place: (ClaimField, nat)) {
    forall x :: x in Cited(SummaryOf(row).claimEvidence, place.0, place.1) ==> x < MAX_SEGMENT
  }

  ghost predicate AllWithinReach(row: DayRow) {
    forall k :: 0 <= k < |Coordinates(BaseOf(row))| ==> WithinReach(row, Coordinates(BaseOf(row))[k])
  }

  /** What the reader asks of a session beyond what building guarantees. */
  ghost predicate StorableRow(p: Platform, row: DayRow) {
    && Visible(row.sessionId) && p.canonicalTime(row.startedAt)
    && (row.summary.Some? ==> IdentityOk(Some(row.summary.value.id)) && IdentityOk(row.revision))
    && AllWithinReach(row)
  }

  lemma ClaimOkIff(p: Platform, row: DayRow, words: Utf16 -> seq<WordToken>, k: nat, c: DigestClaim)
    requires AllClustersJoin(p, row.transcript) && k < |Coordinates(BaseOf(row))|
    requires Sourced(row, words, Coordinates(BaseOf(row))[k], c)
    ensures ClaimOk(p, c) <==> WithinReach(row, Coordinates(BaseOf(row))[k])
  {
    var place, s := Coordinates(BaseOf(row))[k], SummaryOf(row);
    CoordinatesOk(row, k);
    CitedIsBounded(row, place.0, place.1);
    var claim, cited := words(TextAt(s, place.0, place.1)), Cited(s.claimEvidence, place.0, place.1);
    var r :| c.source == SourceOf(r) && ResolvedFrom(claim, row.transcript, cited, r);
    ResolutionIsSource(p, claim, row.transcript, cited, r);
  }

  lemma ClaimsOkIff(p: Platform, row: DayRow, words: Utf16 -> seq<WordToken>, claims: seq<DigestClaim>)
    requires AllClustersJoin(p, row.transcript) && AllSourced(row, words, claims)
    ensures ClaimsOk(p, claims) <==> AllWithinReach(row)
  {
    forall k | 0 <= k < |claims|
      ensures ClaimOk(p, claims[k]) <==> WithinReach(row, Coordinates(BaseOf(row))[k])
    {
      assert Sourced(row, words, Coordinates(BaseOf(row))[k], claims[k]);
      ClaimOkIff(p, row, words, k, claims[k]);
    }
  }

  lemma PlacesAreCoordinates(row: DayRow, words: Utf16 -> seq<WordToken>, claims: seq<DigestClaim>)
    requires AllSourced(row, words, claims)
    ensures PlacesOf(claims) == Coordinates(BaseOf(row))
  {
    var places := Coordinates(BaseOf(row));
    forall k | 0 <= k < |claims| ensures PlacesOf(claims)[k] == places[k] {
      assert Sourced(row, words, places[k], claims[k]);
    }
  }

  /** Without a summary there is nothing to show. */
  lemma NoSummaryNoClaims(row: DayRow)
    requires row.summary.None?
    ensures Coordinates(BaseOf(row)) == []
  {
    forall f: ClaimField ensures ItemsOf(EMPTY_SUMMARY, f) == [] {
    }
  }

  lemma RowOkIff(p: Platform, row: DayRow, words: Utf16 -> seq<WordToken>, out: DigestRow)
    requires AllClustersJoin(p, row.transcript) && BuiltRow(row, words, out)
    ensures RowOk(p, out, true) <==> StorableRow(p, row)
  {
    var v := out.provenance.value;
    ClaimsOkIff(p, row, words, v.claims);
    PlacesAreCoordinates(row, words, v.claims);
    if row.summary.None? { NoSummaryNoClaims(row); }
    SameBase(row, out);
  }

  lemma SameBase(row: DayRow, out: DigestRow)
    requires out == BaseOf(row).(provenance := out.provenance)
    ensures Coordinates(out) == Coordinates(BaseOf(row)) && out.speechMs >= 0.0
    ensures out.sessionId == row.sessionId && out.startedAt == row.startedAt
  {
  }

  // ------------------------------------------------------------------------ the day

  ghost predicate StorableDay(p: Platform, host: Utf16, rows: seq<DayRow>) {
    Visible(host) && forall k :: 0 <= k < |rows| ==> StorableRow(p, rows[k])
  }

  lemma {:induction false} BuiltAt(rows: seq<DayRow>, words: Utf16 -> seq<WordToken>, out: seq<DigestRow>, k: nat)
    requires BuiltRows(rows, words, out) && k < |out|
    ensures k < |rows| && BuiltRow(rows[k], words, out[k])
  {
    if k < |out| - 1 { BuiltAt(rows, words, out[..|out| - 1], k); }
  }

  lemma RowAtOkIff(p: Platform, rows: seq<DayRow>, words: Utf16 -> seq<WordToken>, out: seq<DigestRow>, k: nat)
    requires BuiltRows(rows, words, out) && k < |out| == |rows| && AllClustersJoin(p, rows[k].transcript)
    ensures RowOk(p, out[k], true) <==> StorableRow(p, rows[k])
    ensures out[k].provenance.Some? && Coordinates(out[k]) == Coordinates(BaseOf(rows[k]))
  {
    BuiltAt(rows, words, out, k);
    RowOkIff(p, rows[k], words, out[k]);
    SameBase(rows[k], out[k]);
  }

  lemma RowsOkIff(p: Platform, rows: seq<DayRow>, words: Utf16 -> seq<WordToken>, out: seq<DigestRow>)
    requires BuiltRows(rows, words, out) && |out| == |rows|
    requires forall k :: 0 <= k < |rows| ==> AllClustersJoin(p, rows[k].transcript)
    ensures RowsOk(p, out, true) <==> forall k :: 0 <= k < |rows| ==> StorableRow(p, rows[k])
    ensures forall k :: 0 <= k < |out| ==>
      out[k].provenance.Some? && Coordinates(out[k]) == Coordinates(BaseOf(rows[k]))
  {
    forall k | 0 <= k < |rows|
      ensures RowOk(p, out[k], true) <==> StorableRow(p, rows[k])
      ensures out[k].provenance.Some? && Coordinates(out[k]) == Coordinates(BaseOf(rows[k]))
    {
      RowAtOkIff(p, rows, words, out, k);
    }
  }

  lemma {:induction false} SameCount(rows: seq<DayRow>, out: seq<DigestRow>)
    requires |out| == |rows| && forall k :: 0 <= k < |out| ==> Coordinates(out[k]) == Coordinates(BaseOf(rows[k]))
    ensures ClaimCount(out) == ClaimCount(Bases(rows))
  {
    if out != [] {
      var n := |out| - 1;
      assert Bases(rows)[..n] == Bases(rows[..n]);
      SameCount(rows[..n], out[..n]);
    }
  }

  /** Every digest built comes back equal, or is refused, and which of the two only depends
      on the day's identifiers, times and cited segments. */
  lemma BuiltDigestSurvivesIff(
    p: Platform, date: Utf16, host: Utf16, rows: seq<DayRow>, words: Utf16 -> seq<WordToken>, d: Digest)
    requires BuiltDigest(date, host, rows, words, d)
    requires forall k :: 0 <= k < |rows| ==> AllClustersJoin(p, rows[k].transcript)
    ensures ReadDigest(p, DigestRaw(d), date) == if StorableDay(p, host, rows) then Some(d) else None
  {
    RowsOkIff(p, rows, words, d.rows);
    SameCount(rows, d.rows);
    ReadBackIff(p, d, date);
  }

  /** A digest is stored without these checks: one built under a blank host name can never
      be read again. */
  lemma BlankHostIsRefused(p: Platform, date: Utf16, words: Utf16 -> seq<WordToken>) returns (d: Digest)
    ensures BuiltDigest(date, [], [], words, d) && ReadDigest(p, DigestRaw(d), date).None?
  {
    d := Digest([], date, 0, 0.0, true, []);
    assert Bases([]) == [];
    assert !Visible([]);
    BuiltDigestSurvivesIff(p, date, [], [], words, d);
  }

  /** No transcript of a million segments or fewer can be the reason for a refusal. */
  lemma ShortTranscriptsAreWithinReach(row: DayRow)
    requires |row.transcript| <= MAX_SEGMENT
    ensures AllWithinReach(row)
  {
    forall k | 0 <= k < |Coordinates(BaseOf(row))| ensures WithinReach(row, Coordinates(BaseOf(row))[k]) {
      var place := Coordinates(BaseOf(row))[k];
      CitedIsThere(row, place.0, place.1);
    }
  }

  /** The digest shows a stored summary exactly as it was written. */
  lemma ShownAsWritten(row: DayRow, s: StructuredSummary)
    requires WithinBounds(s) && row.summary.Some?
    requires row.summary.value.payload == Stored(Written(s, |row.transcript|))
    ensures SummaryOf(row) == Written(s, |row.transcript|)
  {
    WrittenReadsBack(s, |row.transcript|);
  }

  // --------------------------------------------------------- a digest that is refused

  /** A summary whose text cites segment 1,000,000. */
  const FAR_CLAIM := ClaimEvidence(Summary, 0, [MAX_SEGMENT])
  const FAR_SUMMARY := StructuredSummary([0x61], map f | f in LIST_FIELDS :: [], [FAR_CLAIM], [])

  lemma FarSummaryWritten(count: nat)
    requires count > MAX_SEGMENT
    ensures WithinBounds(FAR_SUMMARY) && Written(FAR_SUMMARY, count) == FAR_SUMMARY
  {
    TrimVisible([0x61]);
    StorageIsExactIff(FAR_SUMMARY);
    assert [FAR_CLAIM][..0] == [] && [MAX_SEGMENT as nat][..0] == [];
    assert Below([MAX_SEGMENT], count) == [MAX_SEGMENT];
    assert BoundedEvidence([FAR_CLAIM], count) == [FAR_CLAIM];
    assert Below([], count) == [];
  }

  /** A session with that summary and the segment it cites. */
  ghost predicate FarRow(row: DayRow) {
    && |row.transcript| == MAX_SEGMENT + 1
    && row.summary.Some? && row.summary.value.payload == Stored(FAR_SUMMARY)
  }

  lemma FirstCoordinate(row: DigestRow)
    requires row.summary != []
    ensures Coordinates(row) != [] && Coordinates(row)[0] == (Summary, 0)
  {
  }

  lemma FarCited()
    ensures MAX_SEGMENT in Cited([FAR_CLAIM], Summary, 0)
  {
    assert Cited([FAR_CLAIM], Summary, 0) == [MAX_SEGMENT];
  }

  lemma FarRowShown(row: DayRow)
    requires FarRow(row)
    ensures SummaryOf(row) == FAR_SUMMARY
  {
    FarSummaryWritten(|row.transcript|);
    ShownAsWritten(row, FAR_SUMMARY);
  }

  lemma FarRowIsNotWithinReach(row: DayRow)
    requires FarRow(row)
    ensures !AllWithinReach(row)
  {
    FarRowShown(row);
    FirstCoordinate(BaseOf(row));
    FarCited();
    assert !WithinReach(row, Coordinates(BaseOf(row))[0]);
  }

  /** A day of one such session is built. */
  lemma FarDayIsBuilt(row: DayRow)
    requires FarRow(row) && row.revision.Some?
    ensures Buildable([row])
  {
    FarBase(row);
    OneRowCount(BaseOf(row));
    assert Bases([row]) == [BaseOf(row)];
    assert Identified(row);
  }

  lemma FarBase(row: DayRow)
    requires FarRow(row)
    ensures Coordinates(BaseOf(row)) == [(Summary, 0)]
  {
    FarRowShown(row);
    assert ItemsOf(FAR_SUMMARY, Decisions) == [] && ItemsOf(FAR_SUMMARY, Tasks) == [];
    assert ItemsOf(FAR_SUMMARY, Questions) == [];
    FarCoordinates(BaseOf(row));
  }

  lemma OneRowCount(base: DigestRow)
    ensures ClaimCount([base]) == |Coordinates(base)|
  {
    assert [base][..0] == [];
  }

  lemma FarCoordinates(base: DigestRow)
    requires base.summary != [] && base.decisions == [] && base.tasks == [] && base.questions == []
    ensures Coordinates(base) == [(Summary, 0)]
  {
  }

  /** The digest of a day with such a session is built and stored, and never read again,
      whatever its host, identifiers and times. */
  lemma FarClaimIsRefused(
    p: Platform, date: Utf16, host: Utf16, rows: seq<DayRow>, words: Utf16 -> seq<WordToken>, d: Digest, at: nat)
    requires BuiltDigest(date, host, rows, words, d) && at < |rows| && FarRow(rows[at])
    requires forall k :: 0 <= k < |rows| ==> AllClustersJoin(p, rows[k].transcript)
    ensures ReadDigest(p, DigestRaw(d), date).None?
  {
    FarRowIsNotWithinReach(rows[at]);
    assert !StorableRow(p, rows[at]);
    BuiltDigestSurvivesIff(p, date, host, rows, words, d);
  }

  lemma CitedIsThere(row: DayRow, field: ClaimField, item: nat)
    ensures forall x :: x in Cited(SummaryOf(row).claimEvidence, field, item) ==> x < |row.transcript|
  {
    var evidence := SummaryOf(row).claimEvidence;
    CitedFrom(evidence, field, item);
    if Cited(evidence, field, item) != [] {
      var c :| c in evidence && c.segments == Cited(evidence, field, item);
      var parsed, limit := Parse(row.summary.value.payload), |row.transcript|;
      BoundedEvidenceFacts(parsed.claimEvidence, limit, c);
      var k :| 0 <= k < |parsed.claimEvidence| && BoundedFrom(parsed.claimEvidence[k], limit, c);
      BelowFacts(parsed.claimEvidence[k].segments, limit);
    }
  }

  // -------------------------------------------------------------------- the snapshots

  /** The `digests` table, one snapshot a date. */
  class DigestStore {
    var digests: map<Utf16, RawDigest>

    /** The first writer of a date wins. */
    method StoreDigest(d: Digest) returns (stored: bool)
      modifies this
      ensures stored <==> d.date !in old(digests)
      ensures digests == if stored then old(digests)[d.date := DigestRaw(d)] else old(digests)
    {
      stored := d.date !in digests;
      if stored { digests := digests[d.date := DigestRaw(d)]; }
    }

    /** `None` without a snapshot; an inner `None` where the source throws. What comes back is
        acceptable, and it is the digest that was stored whenever that is. */
    method ReadStoredDigest(p: Platform, date: Utf16) returns (r: Option<Option<Digest>>)
      ensures r.Some? <==> date in digests
      ensures r.Some? ==> r.value == ReadDigest(p, digests[date], date)
      ensures r.Some? && r.value.Some? ==> DigestOk(p, r.value.value, date)
      ensures forall d :: date in digests && digests[date] == DigestRaw(d) && Uniform(d) ==>
        r == Some(if DigestOk(p, d, date) then Some(d) else None)
    {
      if date !in digests { return None; }
      r := Some(ReadDigest(p, digests[date], date));
      if r.value.Some? { AcceptedIsStable(p, digests[date], date); }
      forall d | digests[date] == DigestRaw(d) && Uniform(d)
        ensures r == Some(if DigestOk(p, d, date) then Some(d) else None)
      {
        ReadBackIff(p, d, date);
      }
    }
  }
}

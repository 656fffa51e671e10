/** Digests through storage (src/digest/daily.ts:537-846): a stored digest is read back
    equal or not at all, exactly by a condition on the digest, and whatever is accepted
    satisfies that condition. */
module DigestStorage {

  import opened Common
  import opened SummarySchema
  import opened SummaryParse
  import opened SummaryStorage
  import opened DigestModel

  // ---------------------------------------------------------------------- as payload

  function SourceRaw(c: DigestClaim): RawSource {
    var field, item := Str(Units(Name(c.field))), Number(c.item as real);
    match c.source
    case NoSource => RawSource(field, item, Str(MISSING), Numbers([]), None, None, false)
    case Referred(segments) => RawSource(field, item, Str(REFERENCED), Numbers(segments), None, None, false)
    case NotLocalized(segments) => RawSource(field, item, Str(UNLOCALIZED), Numbers(segments), None, None, false)
    case Quoted(segments, segment, excerpt) =>
      RawSource(
        field, item, Str(LOCALIZED), Numbers(segments), Some(Number(segment as real)), Some(Str(excerpt)), false)
  }

  function IdentityJson(id: Option<Utf16>): Json { if id.Some? then Str(id.value) else Null }

  function SourceRaws(claims: seq<DigestClaim>): seq<RawSource> {
    seq(|claims|, k requires 0 <= k < |claims| => SourceRaw(claims[k]))
  }

  function RowRaw(row: DigestRow): RawRow {
    RawRow(
      Str(row.sessionId), Str(row.startedAt), Number(row.speechMs), Str(row.summary),
      Texts(row.decisions), Texts(row.tasks), Texts(row.questions),
      if row.provenance.Some? then Some(IdentityJson(row.provenance.value.summaryId)) else None,
      if row.provenance.Some? then Some(IdentityJson(row.provenance.value.revisionId)) else None,
      if row.provenance.Some? then Some(SourceList(SourceRaws(row.provenance.value.claims))) else None)
  }

  function RowRaws(rows: seq<DigestRow>): seq<RawRow> {
    seq(|rows|, k requires 0 <= k < |rows| => RowRaw(rows[k]))
  }

  /** `JSON.stringify(digest)`, as an object. */
  function DigestRaw(d: Digest): RawDigest {
    RawDigest(Str(DIGEST_KIND), Str(d.host), Str(d.date), if d.versioned then Some(Number(2.0)) else None,
              Number(d.sessionCount as real), Number(d.totalSpeechMs), RowList(RowRaws(d.rows)))
  }

  // -------------------------------------------------------------- what is acceptable

  predicate SourceOk(p: Platform, s: Source) {
    match s
    case NoSource => true
    case Referred(segments) => segments != [] && SegmentsOk(segments)
    case NotLocalized(segments) => segments != [] && SegmentsOk(segments)
    case Quoted(segments, segment, excerpt) => SegmentsOk(segments) && segment in segments && ExcerptOk(p, excerpt)
  }

  predicate ClaimOk(p: Platform, c: DigestClaim) {
    c.field in DIGEST_FIELDS && c.item < MAX_ITEMS && SourceOk(p, c.source)
  }

  /** One source for every visible claim, in order, and ids for a row with claims. */
  predicate ProvenanceOk(p: Platform, row: DigestRow, v: Provenance) {
    && IdentityOk(v.summaryId) && IdentityOk(v.revisionId) && (v.summaryId.None? <==> v.revisionId.None?)
    && (v.revisionId.None? ==> Coordinates(row) == [])
    && PlacesOf(v.claims) == Coordinates(row) && forall k :: 0 <= k < |v.claims| ==> ClaimOk(p, v.claims[k])
  }

  predicate RowOk(p: Platform, row: DigestRow, versioned: bool) {
    && Visible(row.sessionId) && p.canonicalTime(row.startedAt) && row.speechMs >= 0.0
    && row.provenance.Some? == versioned && (versioned ==> ProvenanceOk(p, row, row.provenance.value))
  }

  predicate RowsOk(p: Platform, rows: seq<DigestRow>, versioned: bool) {
    forall k :: 0 <= k < |rows| ==> RowOk(p, rows[k], versioned)
  }

  /** What the reader checks below the header. */
  predicate BodyOk(p: Platform, d: Digest) {
    && d.sessionCount == |d.rows| && d.totalSpeechMs == SumSpeech(d.rows)
    && (d.versioned ==> |d.rows| <= MAX_DIGEST_ROWS && ClaimCount(d.rows) <= MAX_DIGEST_CLAIMS)
    && RowsOk(p, d.rows, d.versioned)
  }

  predicate DigestOk(p: Platform, d: Digest, date: Utf16) {
    Visible(d.host) && d.date == date && BodyOk(p, d)
  }

  // ----------------------------------------------------------------- reading it back

  lemma {:induction false} NumbersBack(segments: seq<nat>)
    ensures AllIntegers(Numbers(segments).items) == Some(segments)
  {
    if segments != [] {
      var n := |segments| - 1;
      assert Numbers(segments).items[..n] == Numbers(segments[..n]).items;
      NumbersBack(segments[..n]);
      IntegerBack(segments[n]);
      assert segments == segments[..n] + [segments[n]];
    }
  }

  lemma {:induction false} TextsBack(items: seq<Utf16>)
    ensures AllTexts(Texts(items).items) == Some(items)
  {
    if items != [] {
      var n := |items| - 1;
      assert Texts(items).items[..n] == Texts(items[..n]).items;
      TextsBack(items[..n]);
      assert items == items[..n] + [items[n]];
    }
  }

  lemma KindsDiffer()
    ensures |MISSING| == 7 && |REFERENCED| == 10 && |UNLOCALIZED| == 11 && |LOCALIZED| == 9
  {
  }

  lemma StatusBack(p: Platform, c: DigestClaim, segments: seq<nat>)
    requires segments == if c.source.NoSource? then [] else c.source.segments
    requires SegmentsOk(segments)
    ensures ReadStatus(p, SourceRaw(c), segments) == if SourceOk(p, c.source) then Some(c.source) else None
  {
    KindsDiffer();
    if c.source.Quoted? { IntegerBack(c.source.segment); }
  }

  lemma DigestFieldBack(f: ClaimField)
    ensures FieldOf(Units(Name(f)), DIGEST_FIELDS) == if f in DIGEST_FIELDS then Some(f) else None
  {
    AbsentOrFirst(f, DIGEST_FIELDS);
  }

  lemma {:induction false} AbsentOrFirst(f: ClaimField, among: seq<ClaimField>)
    ensures FieldOf(Units(Name(f)), among) == if f in among then Some(f) else None
  {
    if among != [] && among[0] != f {
      NamesDiffer(among[0], f);
      AbsentOrFirst(f, among[1..]);
    }
  }

  lemma SourceBack(p: Platform, c: DigestClaim)
    ensures ReadSource(p, SourceRaw(c)) == if ClaimOk(p, c) then Some(c) else None
  {
    var segments := if c.source.NoSource? then [] else c.source.segments;
    DigestFieldBack(c.field);
    IntegerBack(c.item);
    NumbersBack(segments);
    assert SourceRaw(c).segments == Numbers(segments);
    if SegmentsOk(segments) { StatusBack(p, c, segments); }
  }

  predicate ClaimsOk(p: Platform, claims: seq<DigestClaim>) { forall k :: 0 <= k < |claims| ==> ClaimOk(p, claims[k]) }

  lemma {:induction false} SourcesBack(p: Platform, claims: seq<DigestClaim>)
    ensures ReadSources(p, SourceRaws(claims)) == if ClaimsOk(p, claims) then Some(claims) else None
  {
    if claims != [] {
      SourcesBack(p, claims[..|claims| - 1]);
      LastSourceBack(p, claims);
    }
  }

  lemma LastSourceBack(p: Platform, claims: seq<DigestClaim>)
    requires claims != []
    requires var front := claims[..|claims| - 1];
      ReadSources(p, SourceRaws(front)) == if ClaimsOk(p, front) then Some(front) else None
    ensures ReadSources(p, SourceRaws(claims)) == if ClaimsOk(p, claims) then Some(claims) else None
  {
    var n := |claims| - 1;
    assert SourceRaws(claims)[..n] == SourceRaws(claims[..n]);
    SourceBack(p, claims[n]);
    LastClaimOk(p, claims);
  }

  lemma LastClaimOk(p: Platform, claims: seq<DigestClaim>)
    requires claims != []
    ensures var n := |claims| - 1;
      && claims == claims[..n] + [claims[n]]
      && (ClaimsOk(p, claims) <==> ClaimsOk(p, claims[..n]) && ClaimOk(p, claims[n]))
  {
  }

  lemma BaseBack(p: Platform, row: DigestRow)
    ensures ReadBase(p, RowRaw(row)) ==
      if Visible(row.sessionId) && p.canonicalTime(row.startedAt) && row.speechMs >= 0.0
      then Some(row.(provenance := None)) else None
  {
    TextsBack(row.decisions);
    TextsBack(row.tasks);
    TextsBack(row.questions);
  }

  lemma ProvenanceBack(p: Platform, row: DigestRow, base: DigestRow)
    requires row.provenance.Some? && Coordinates(base) == Coordinates(row)
    ensures ReadProvenance(p, RowRaw(row), base) ==
      if ProvenanceOk(p, row, row.provenance.value) then row.provenance else None
  {
    SourcesBack(p, row.provenance.value.claims);
  }

  lemma RowBack(p: Platform, row: DigestRow, versioned: bool)
    requires row.provenance.Some? == versioned
    ensures ReadRow(p, RowRaw(row), versioned) == if RowOk(p, row, versioned) then Some(row) else None
  {
    BaseBack(p, row);
    if versioned { ProvenanceBack(p, row, row.(provenance := None)); }
  }

  lemma {:induction false} RowsBack(p: Platform, rows: seq<DigestRow>, versioned: bool)
    requires forall k :: 0 <= k < |rows| ==> rows[k].provenance.Some? == versioned
    ensures ReadRows(p, RowRaws(rows), versioned) == if RowsOk(p, rows, versioned) then Some(rows) else None
  {
    if rows != [] {
      var n := |rows| - 1;
      assert RowRaws(rows)[..n] == RowRaws(rows[..n]);
      RowsBack(p, rows[..n], versioned);
      RowBack(p, rows[n], versioned);
      assert rows == rows[..n] + [rows[n]];
    }
  }

  lemma {:induction false} SpeechIsNotNegative(p: Platform, rows: seq<DigestRow>, versioned: bool)
    requires RowsOk(p, rows, versioned)
    ensures SumSpeech(rows) >= 0.0
  {
    if rows != [] { SpeechIsNotNegative(p, rows[..|rows| - 1], versioned); }
  }

  /** All its rows carry their sources, or none does. */
  predicate Uniform(d: Digest) {
    forall k :: 0 <= k < |d.rows| ==> d.rows[k].provenance.Some? == d.versioned
  }

  lemma BodyBack(p: Platform, d: Digest, date: Utf16)
    requires Uniform(d)
    ensures ReadBody(p, DigestRaw(d), date, d.versioned) == if BodyOk(p, d) then Some(d.(date := date)) else None
  {
    IntegerBack(d.sessionCount);
    RowsBack(p, d.rows, d.versioned);
    assert |RowRaws(d.rows)| == |d.rows|;
    if RowsOk(p, d.rows, d.versioned) { SpeechIsNotNegative(p, d.rows, d.versioned); }
  }

  lemma HeaderBack(d: Digest)
    ensures ReadVersion(DigestRaw(d)) == Some(d.versioned)
    ensures DigestRaw(d).date == Str(d.date) && DigestRaw(d).host == Str(d.host)
      && DigestRaw(d).sourceKind == Str(DIGEST_KIND)
  {
  }

  /** Every snapshot of one version is read back equal if it is acceptable, and refused if
      it is not. */
  lemma ReadBackIff(p: Platform, d: Digest, date: Utf16)
    requires Uniform(d)
    ensures ReadDigest(p, DigestRaw(d), date) == if DigestOk(p, d, date) then Some(d) else None
  {
    HeaderBack(d);
    BodyBack(p, d, date);
  }

  // -------------------------------------------------------- whatever is accepted is good

  lemma SourceAccepted(p: Platform, raw: RawSource)
    ensures ReadSource(p, raw).Some? ==> ClaimOk(p, ReadSource(p, raw).value)
  {
    if raw.RawSource? && raw.field.Str? { FieldIsAmong(raw.field.text, DIGEST_FIELDS); }
  }

  lemma {:induction false} FieldIsAmong(text: Utf16, among: seq<ClaimField>)
    ensures FieldOf(text, among).Some? ==> FieldOf(text, among).value in among
  {
    if among != [] { FieldIsAmong(text, among[1..]); }
  }

  lemma {:induction false} SourcesAccepted(p: Platform, items: seq<RawSource>)
    ensures ReadSources(p, items).Some? ==> ClaimsOk(p, ReadSources(p, items).value)
  {
    if items != [] {
      SourcesAccepted(p, items[..|items| - 1]);
      SourceAccepted(p, items[|items| - 1]);
    }
  }

  lemma RowAccepted(p: Platform, raw: RawRow, versioned: bool)
    ensures ReadRow(p, raw, versioned).Some? ==> RowOk(p, ReadRow(p, raw, versioned).value, versioned)
  {
    if versioned && raw.RawRow? && raw.claimSources.Some? && raw.claimSources.value.SourceList? {
      SourcesAccepted(p, raw.claimSources.value.items);
    }
  }

  lemma {:induction false} RowsAccepted(p: Platform, items: seq<RawRow>, versioned: bool)
    ensures ReadRows(p, items, versioned).Some? ==>
      |ReadRows(p, items, versioned).value| == |items| && RowsOk(p, ReadRows(p, items, versioned).value, versioned)
  {
    if items != [] {
      RowsAccepted(p, items[..|items| - 1], versioned);
      RowAccepted(p, items[|items| - 1], versioned);
    }
  }

  /** Whatever payload is accepted, what is read of it is an acceptable digest, and storing
      that again changes nothing. */
  lemma AcceptedIsStable(p: Platform, raw: RawDigest, date: Utf16)
    requires ReadDigest(p, raw, date).Some?
    ensures DigestOk(p, ReadDigest(p, raw, date).value, date)
    ensures ReadDigest(p, DigestRaw(ReadDigest(p, raw, date).value), date) == ReadDigest(p, raw, date)
  {
    RowsAccepted(p, raw.rows.items, ReadVersion(raw).value);
    ReadBackIff(p, ReadDigest(p, raw, date).value, date);
  }

  /** The places of a row's claims are all different, so no claim has two sources. */
  lemma CoordinatesDiffer(row: DigestRow)
    ensures forall j, k :: 0 <= j < k < |Coordinates(row)| ==> Coordinates(row)[j] != Coordinates(row)[k]
  {
  }
}

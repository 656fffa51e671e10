/** Stored daily digests (src/digest/daily.ts:556-846): what `readStoredDigest` accepts of
    a stored payload, and what it makes of it. Objects are given by the values of the
    properties the source looks at; an absent property that the source tells from `null`
    is an absent option. */
module DigestModel {

  import opened Common
  import opened SummarySchema
  import opened SummaryParse

  const MAX_DIGEST_ROWS := 200
  const MAX_DIGEST_CLAIMS := 1000
  const MAX_SEGMENT := 1_000_000
  const MAX_IDENTITY := 200
  const MAX_EXCERPT_CLUSTERS := 122
  const MAX_EXCERPT_ESCAPED := 320

  const DIGEST_FIELDS: seq<ClaimField> := [Summary, Decisions, Tasks, Questions]

  // ------------------------------------------------------------------------ digests

  datatype Source =
    | NoSource
    | Referred(segments: seq<nat>)
    | NotLocalized(segments: seq<nat>)
    | Quoted(segments: seq<nat>, segment: nat, excerpt: Utf16)

  datatype DigestClaim = DigestClaim(field: ClaimField, item: nat, source: Source)

  datatype Provenance = Provenance(summaryId: Option<Utf16>, revisionId: Option<Utf16>, claims: seq<DigestClaim>)

  /** `provenance` is absent in legacy snapshots. */
  datatype DigestRow = DigestRow(
    sessionId: Utf16, startedAt: Utf16, speechMs: real,
    summary: Utf16, decisions: seq<Utf16>, tasks: seq<Utf16>, questions: seq<Utf16>, provenance: Option<Provenance>)

  datatype Digest = Digest(
    host: Utf16, date: Utf16, sessionCount: nat, totalSpeechMs: real, versioned: bool, rows: seq<DigestRow>)

  function Places(f: ClaimField, n: nat): seq<(ClaimField, nat)> { seq(n, i => (f, i)) }

  /** Where the visible claims of a row are, in order. */
  function Coordinates(row: DigestRow): seq<(ClaimField, nat)> {
    (if row.summary == [] then [] else [(Summary, 0)])
    + Places(Decisions, |row.decisions|) + Places(Tasks, |row.tasks|) + Places(Questions, |row.questions|)
  }

  function PlacesOf(claims: seq<DigestClaim>): seq<(ClaimField, nat)> {
    seq(|claims|, k requires 0 <= k < |claims| => (claims[k].field, claims[k].item))
  }

  function SumSpeech(rows: seq<DigestRow>): real {
    if rows == [] then 0.0 else SumSpeech(rows[..|rows| - 1]) + rows[|rows| - 1].speechMs
  }

  function ClaimCount(rows: seq<DigestRow>): nat {
    if rows == [] then 0 else ClaimCount(rows[..|rows| - 1]) + |Coordinates(rows[|rows| - 1])|
  }

  // ------------------------------------------------------------------------ payloads

  datatype RawSource =
    | NotASource
    | RawSource(field: Json, item: Json, kind: Json, segments: Json,
                localizedSegment: Option<Json>, excerpt: Option<Json>, otherKeys: bool)

  datatype RawSources = NotAList | SourceList(items: seq<RawSource>)

  datatype RawRow =
    | NotARow
    | RawRow(sessionId: Json, startedAt: Json, speechMs: Json,
             summary: Json, decisions: Json, tasks: Json, questions: Json,
             summaryId: Option<Json>, revisionId: Option<Json>, claimSources: Option<RawSources>)

  datatype RawRows = NotRows | RowList(items: seq<RawRow>)

  datatype RawDigest =
    | NotADigest
    | RawDigest(sourceKind: Json, host: Json, date: Json, version: Option<Json>,
                sessionCount: Json, totalSpeechMs: Json, rows: RawRows)

  /** What the source leaves to the platform: grapheme counting and date parsing. */
  datatype Platform = Platform(clusters: Utf16 -> nat, canonicalTime: Utf16 -> bool)

  // ------------------------------------------------------------------------- reading

  predicate Visible(s: Utf16) { Trim(s) != [] }

  function EscapedUnit(c: CodeUnit): nat {
    if c == 0x26 then 5 else if c == 0x3C || c == 0x3E then 4 else if c == 0x22 then 6 else 1
  }

  /** Length after HTML escaping. */
  function EscapedUnits(s: Utf16): nat {
    if s == [] then 0 else EscapedUnits(s[..|s| - 1]) + EscapedUnit(s[|s| - 1])
  }

  function AllIntegers(items: seq<Json>): Option<seq<nat>> {
    if items == [] then Some([])
    else
      var front, last := AllIntegers(items[..|items| - 1]), IntegerOf(items[|items| - 1]);
      if front.Some? && last.Some? then Some(front.value + [last.value]) else None
  }

  predicate SegmentsOk(segments: seq<nat>) {
    && |segments| <= MAX_ITEMS && NoDuplicates(segments)
    && forall k :: 0 <= k < |segments| ==> segments[k] < MAX_SEGMENT
  }

  function ReadSegments(j: Json): Option<seq<nat>> {
    if !j.Arr? then None
    else
      var all := AllIntegers(j.items);
      if all.Some? && SegmentsOk(all.value) then all else None
  }

  const MISSING := Units("missing")
  const REFERENCED := Units("referenced")
  const UNLOCALIZED := Units("unlocalized")
  const LOCALIZED := Units("localized")

  predicate ExcerptOk(p: Platform, excerpt: Utf16) {
    excerpt != [] && p.clusters(excerpt) <= MAX_EXCERPT_CLUSTERS && EscapedUnits(excerpt) <= MAX_EXCERPT_ESCAPED
  }

  /** The status of a claim's source, given its segments. */
  function ReadStatus(p: Platform, raw: RawSource, segments: seq<nat>): Option<Source>
    requires raw.RawSource?
  {
    if !raw.kind.Str? || raw.otherKeys then None
    else if raw.kind.text == LOCALIZED then
      if segments != [] && raw.localizedSegment.Some? && raw.excerpt.Some?
         && IntegerOf(raw.localizedSegment.value).Some? && IntegerOf(raw.localizedSegment.value).value in segments
         && raw.excerpt.value.Str? && ExcerptOk(p, raw.excerpt.value.text)
      then Some(Quoted(segments, IntegerOf(raw.localizedSegment.value).value, raw.excerpt.value.text))
      else None
    else if raw.localizedSegment.Some? || raw.excerpt.Some? then None
    else if raw.kind.text == MISSING then if segments == [] then Some(NoSource) else None
    else if segments == [] then None
    else if raw.kind.text == REFERENCED then Some(Referred(segments))
    else if raw.kind.text == UNLOCALIZED then Some(NotLocalized(segments))
    else None
  }

  /** `validateDigestClaimSource`. */
  function ReadSource(p: Platform, raw: RawSource): Option<DigestClaim> {
    if raw.NotASource? || !raw.field.Str? then None
    else
      var field := FieldOf(raw.field.text, DIGEST_FIELDS);
      var item, segments := IntegerOf(raw.item), ReadSegments(raw.segments);
      if field.None? || item.None? || item.value >= MAX_ITEMS || segments.None? then None
      else
        var status := ReadStatus(p, raw, segments.value);
        if status.None? then None else Some(DigestClaim(field.value, item.value, status.value))
  }

  function ReadSources(p: Platform, items: seq<RawSource>): Option<seq<DigestClaim>> {
    if items == [] then Some([])
    else
      var front, last := ReadSources(p, items[..|items| - 1]), ReadSource(p, items[|items| - 1]);
      if front.Some? && last.Some? then Some(front.value + [last.value]) else None
  }

  function AllTexts(items: seq<Json>): Option<seq<Utf16>> {
    if items == [] then Some([])
    else
      var front, last := AllTexts(items[..|items| - 1]), items[|items| - 1];
      if front.Some? && last.Str? then Some(front.value + [last.text]) else None
  }

  function ReadTexts(j: Json): Option<seq<Utf16>> { if j.Arr? then AllTexts(j.items) else None }

  predicate IdentityOk(id: Option<Utf16>) { id.Some? ==> Visible(id.value) && |id.value| <= MAX_IDENTITY }

  /** `nullableIdentity`: the outer option is whether it is valid. */
  function ReadIdentity(j: Option<Json>): Option<Option<Utf16>> {
    if j.None? then None
    else if j.value.Null? then Some(None)
    else if j.value.Str? && IdentityOk(Some(j.value.text)) then Some(Some(j.value.text))
    else None
  }

  /** The provenance of a row whose other fields are `base`. */
  function ReadProvenance(p: Platform, raw: RawRow, base: DigestRow): Option<Provenance>
    requires raw.RawRow?
  {
    var summaryId, revisionId := ReadIdentity(raw.summaryId), ReadIdentity(raw.revisionId);
    if summaryId.None? || revisionId.None? || summaryId.value.None? != revisionId.value.None? then None
    else if revisionId.value.None? && Coordinates(base) != [] then None
    else if raw.claimSources.None? || raw.claimSources.value.NotAList? then None
    else
      var claims := ReadSources(p, raw.claimSources.value.items);
      if claims.None? || PlacesOf(claims.value) != Coordinates(base) then None
      else Some(Provenance(summaryId.value, revisionId.value, claims.value))
  }

  /** The fields every row has. */
  function ReadBase(p: Platform, raw: RawRow): Option<DigestRow> {
    if raw.NotARow? then None
    else if !raw.sessionId.Str? || !Visible(raw.sessionId.text) then None
    else if !raw.startedAt.Str? || !p.canonicalTime(raw.startedAt.text) then None
    else if !raw.speechMs.Number? || raw.speechMs.number < 0.0 || !raw.summary.Str? then None
    else
      var decisions, tasks, questions := ReadTexts(raw.decisions), ReadTexts(raw.tasks), ReadTexts(raw.questions);
      if decisions.None? || tasks.None? || questions.None? then None
      else
        Some(DigestRow(raw.sessionId.text, raw.startedAt.text, raw.speechMs.number, raw.summary.text,
                       decisions.value, tasks.value, questions.value, None))
  }

  /** `validateStoredDigestRow`. */
  function ReadRow(p: Platform, raw: RawRow, versioned: bool): Option<DigestRow> {
    var base := ReadBase(p, raw);
    if base.None? then None
    else if !versioned then
      if raw.summaryId.Some? || raw.revisionId.Some? || raw.claimSources.Some? then None else base
    else
      var provenance := ReadProvenance(p, raw, base.value);
      if provenance.None? then None else Some(base.value.(provenance := provenance))
  }

  function ReadRows(p: Platform, items: seq<RawRow>, versioned: bool): Option<seq<DigestRow>> {
    if items == [] then Some([])
    else
      var front, last := ReadRows(p, items[..|items| - 1], versioned), ReadRow(p, items[|items| - 1], versioned);
      if front.Some? && last.Some? then Some(front.value + [last.value]) else None
  }

  const DIGEST_KIND := Units("local_daily_digest")

  /** The checks of the header; `Some(versioned)` when they pass. */
  function ReadVersion(raw: RawDigest): Option<bool>
    requires raw.RawDigest?
  {
    if raw.version.None? then Some(false)
    else if raw.version.value == Number(2.0) then Some(true)
    else None
  }

  /** The rest of a digest whose header has passed. */
  function ReadBody(p: Platform, raw: RawDigest, date: Utf16, versioned: bool): Option<Digest>
    requires raw.RawDigest? && raw.host.Str?
  {
    var count := IntegerOf(raw.sessionCount);
    if count.None? || !raw.totalSpeechMs.Number? || raw.totalSpeechMs.number < 0.0 || raw.rows.NotRows? then None
    else if (versioned && |raw.rows.items| > MAX_DIGEST_ROWS) || count.value != |raw.rows.items| then None
    else
      var rows := ReadRows(p, raw.rows.items, versioned);
      if rows.None? || (versioned && ClaimCount(rows.value) > MAX_DIGEST_CLAIMS)
         || raw.totalSpeechMs.number != SumSpeech(rows.value)
      then None
      else Some(Digest(raw.host.text, date, count.value, raw.totalSpeechMs.number, versioned, rows.value))
  }

  /** `readStoredDigest` on a payload; `None` where the source throws. */
  function ReadDigest(p: Platform, raw: RawDigest, date: Utf16): Option<Digest> {
    if raw.NotADigest? || raw.sourceKind != Str(DIGEST_KIND) then None
    else if !raw.host.Str? || !Visible(raw.host.text) || raw.date != Str(date) || ReadVersion(raw).None? then None
    else ReadBody(p, raw, date, ReadVersion(raw).value)
  }
}

/** Building the daily digest (src/digest/daily.ts:144-241) and storing it: what is built
    is read back equal, exactly when the day's own identifiers and references are ones
    the reader admits. */
module DigestBuild {

  import opened Common
  import opened Text
  import opened SummarySchema
  import opened SummaryParse
  import opened ClaimSource
  import opened ClaimExcerpt
  import opened DigestModel

  // --------------------------------------------------------------------- code units

  function CharUnits(c: char): Utf16 {
    var n := c as int;
    if n < 0x1_0000 then [n as CodeUnit]
    else [(0xD800 + (n - 0x1_0000) / 0x400) as CodeUnit, (0xDC00 + (n - 0x1_0000) % 0x400) as CodeUnit]
  }

  /** A text as the source's UTF-16 strings hold it. */
  function Encode(s: string): Utf16 {
    if s == [] then [] else Encode(s[..|s| - 1]) + CharUnits(s[|s| - 1])
  }

  lemma {:induction false} ReplaceNone(s: string, c: char, with: string)
    requires c !in s
    ensures ReplaceAll(s, [c], with) == s
    decreases |s|
  {
    if s != [] {
      assert s[0] in s;
      ReplaceNone(s[1..], c, with);
    }
  }

  lemma ReplaceOne(c: char, with: string)
    ensures ReplaceAll([c], [c], with) == with
  {
    assert ReplaceAll([c][1..], [c], with) == [];
  }

  lemma EscapedChar(c: char)
    ensures EscapedLength([c]) ==
      if c == '&' then 5 else if c == '<' || c == '>' then 4 else if c == '"' then 6 else Utf16Width(c)
  {
    var s1 := ReplaceAll([c], "&", "&amp;");
    if c == '&' { ReplaceOne(c, "&amp;"); } else { ReplaceAbsent(c, '&', "&amp;"); }
    var s2 := ReplaceAll(s1, "<", "&lt;");
    if c == '<' { ReplaceOne(c, "&lt;"); } else { ReplaceNone(s1, '<', "&lt;"); }
    var s3 := ReplaceAll(s2, ">", "&gt;");
    if c == '>' { ReplaceOne(c, "&gt;"); } else { ReplaceNone(s2, '>', "&gt;"); }
    if c == '"' { ReplaceOne(c, "&quot;"); } else { ReplaceNone(s3, '"', "&quot;"); }
    EscapedWidths(Escape([c]), c);
  }

  lemma EscapedWidths(s: string, c: char)
    ensures s == "&amp;" ==> Units16(s) == 5
    ensures s == "&lt;" || s == "&gt;" ==> Units16(s) == 4
    ensures s == "&quot;" ==> Units16(s) == 6
    ensures s == [c] ==> Units16(s) == Utf16Width(c)
  {
    AsciiUnits("&amp;");
    AsciiUnits("&lt;");
    AsciiUnits("&gt;");
    AsciiUnits("&quot;");
    if s == [c] { assert Units16([c][..0]) == 0; }
  }

  lemma {:induction false} AsciiUnits(s: string)
    requires Ascii(s)
    ensures Units16(s) == |s|
  {
    if s != [] { AsciiUnits(s[..|s| - 1]); }
  }

  lemma {:induction false} UnitsAppend(s: Utf16, t: Utf16)
    ensures EscapedUnits(s + t) == EscapedUnits(s) + EscapedUnits(t)
  {
    if t == [] {
      assert s + t == s;
    } else {
      assert (s + t)[..|s + t| - 1] == s + t[..|t| - 1];
      UnitsAppend(s, t[..|t| - 1]);
    }
  }

  lemma EscapedUnitsOfChar(c: char)
    ensures EscapedUnits(CharUnits(c)) == EscapedLength([c])
  {
    EscapedChar(c);
    var units := CharUnits(c);
    assert EscapedUnits(units[..0]) == 0;
    if |units| == 2 {
      assert units[..1] == [units[0]] && EscapedUnits([units[0]][..0]) == 0;
    }
  }

  /** Escaping before or after encoding gives the same length. */
  lemma {:induction false} EncodedEscape(s: string)
    ensures EscapedUnits(Encode(s)) == EscapedLength(s)
  {
    if s == [] {
      NothingEscaped();
    } else {
      EncodedEscape(s[..|s| - 1]);
      LastCharEscaped(s);
      UnitsAppend(Encode(s[..|s| - 1]), CharUnits(s[|s| - 1]));
      EscapedUnitsOfChar(s[|s| - 1]);
    }
  }

  lemma NothingEscaped()
    ensures EscapedLength([]) == 0
  {
    assert Escape([]) == [];
  }

  lemma LastCharEscaped(s: string)
    requires s != []
    ensures EscapedLength(s) == EscapedLength(s[..|s| - 1]) + EscapedLength([s[|s| - 1]])
  {
    var front, last := s[..|s| - 1], [s[|s| - 1]];
    assert s == front + last;
    EscapedLengthAppends(front, last);
  }

  // ------------------------------------------------------------------------ one row

  /** A summary row of the current revision. */
  datatype StoredSummary = StoredSummary(id: Utf16, payload: Json)

  /** A finished session of the day. */
  datatype DayRow = DayRow(
    sessionId: Utf16, startedAt: Utf16, speechMs: nat,
    revision: Option<Utf16>, summary: Option<StoredSummary>, transcript: seq<Document>)

  function SummaryOf(row: DayRow): StructuredSummary {
    if row.summary.None? then EMPTY_SUMMARY else BoundClaimEvidence(Parse(row.summary.value.payload), |row.transcript|)
  }

  function ItemsOf(s: StructuredSummary, f: ClaimField): seq<Utf16> { if f in s.lists then s.lists[f] else [] }

  function BaseOf(row: DayRow): DigestRow {
    var s := SummaryOf(row);
    DigestRow(row.sessionId, row.startedAt, row.speechMs as real, s.summary,
              ItemsOf(s, Decisions), ItemsOf(s, Tasks), ItemsOf(s, Questions), None)
  }

  function TextAt(s: StructuredSummary, f: ClaimField, item: nat): Utf16 {
    if f == Summary then s.summary else if item < |ItemsOf(s, f)| then ItemsOf(s, f)[item] else []
  }

  function SourceOf(r: Resolution): Source {
    match r
    case Missing => NoSource
    case Referenced(segments) => Referred(segments)
    case Unlocalized(segments) => NotLocalized(segments)
    case Localized(segments, segment, excerpt) => Quoted(segments, segment, Encode(excerpt))
  }

  ghost predicate Sourced(row: DayRow, words: Utf16 -> seq<WordToken>, place: (ClaimField, nat), c: DigestClaim) {
    var s := SummaryOf(row);
    && c.field == place.0 && c.item == place.1
    && exists r :: c.source == SourceOf(r)
         && ResolvedFrom(
              words(TextAt(s, place.0, place.1)), row.transcript, Cited(s.claimEvidence, place.0, place.1), r)
  }

  /** The first places, each with its source. */
  ghost predicate SourcedTo(
    row: DayRow, words: Utf16 -> seq<WordToken>, places: seq<(ClaimField, nat)>, claims: seq<DigestClaim>)
  {
    && |claims| <= |places|
    && forall k {:trigger Sourced(row, words, places[k], claims[k])} :: 0 <= k < |claims| ==>
         Sourced(row, words, places[k], claims[k])
  }

  ghost predicate AllSourced(row: DayRow, words: Utf16 -> seq<WordToken>, claims: seq<DigestClaim>) {
    |claims| == |Coordinates(BaseOf(row))| && SourcedTo(row, words, Coordinates(BaseOf(row)), claims)
  }

  ghost predicate BuiltRow(row: DayRow, words: Utf16 -> seq<WordToken>, out: DigestRow) {
    && out.provenance.Some? && out == BaseOf(row).(provenance := out.provenance)
    && (row.summary.Some? ==> row.revision.Some?)
    && out.provenance.value.summaryId == (if row.summary.Some? then Some(row.summary.value.id) else None)
    && out.provenance.value.revisionId == (if row.summary.Some? then row.revision else None)
    && AllSourced(row, words, out.provenance.value.claims)
  }

  ghost predicate AllSegmented(row: DayRow) { forall k :: 0 <= k < |row.transcript| ==> Segmented(row.transcript[k]) }

  method SourceClaim(row: DayRow, words: Utf16 -> seq<WordToken>, place: (ClaimField, nat)) returns (c: DigestClaim)
    requires AllSegmented(row)
    ensures Sourced(row, words, place, c)
  {
    var (field, item) := place;
    var s := SummaryOf(row);
    var r := ResolveClaimSource(s.claimEvidence, field, item, words(TextAt(s, field, item)), row.transcript);
    c := DigestClaim(field, item, SourceOf(r));
  }

  lemma OneMoreSource(
    row: DayRow, words: Utf16 -> seq<WordToken>, places: seq<(ClaimField, nat)>, claims: seq<DigestClaim>,
    c: DigestClaim)
    requires SourcedTo(row, words, places, claims) && |claims| < |places| && Sourced(row, words, places[|claims|], c)
    ensures SourcedTo(row, words, places, claims + [c])
  {
    forall k | 0 <= k < |claims + [c]| ensures Sourced(row, words, places[k], (claims + [c])[k]) {
      if k < |claims| { assert Sourced(row, words, places[k], claims[k]); }
    }
  }

  method SourceClaims(row: DayRow, words: Utf16 -> seq<WordToken>, places: seq<(ClaimField, nat)>)
    returns (claims: seq<DigestClaim>)
    requires AllSegmented(row)
    ensures |claims| == |places| && SourcedTo(row, words, places, claims)
  {
    claims := [];
    for k := 0 to |places|
      invariant |claims| == k && SourcedTo(row, words, places, claims)
    {
      var c := SourceClaim(row, words, places[k]);
      OneMoreSource(row, words, places, claims, c);
      claims := claims + [c];
    }
  }

  method BuildRow(row: DayRow, words: Utf16 -> seq<WordToken>) returns (out: DigestRow)
    requires AllSegmented(row) && (row.summary.Some? ==> row.revision.Some?)
    ensures BuiltRow(row, words, out) && out.provenance.Some?
    ensures |out.provenance.value.claims| == |Coordinates(BaseOf(row))|
  {
    var base := BaseOf(row);
    var claims := SourceClaims(row, words, Coordinates(base));
    var summaryId := if row.summary.Some? then Some(row.summary.value.id) else None;
    var revisionId := if row.summary.Some? then row.revision else None;
    out := base.(provenance := Some(Provenance(summaryId, revisionId, claims)));
  }

  // ------------------------------------------------------------------------ the day

  datatype BuildError = TooManySessions | UnidentifiedSummary | TooManyClaims

  function Bases(rows: seq<DayRow>): seq<DigestRow> { seq(|rows|, k requires 0 <= k < |rows| => BaseOf(rows[k])) }

  predicate Buildable(rows: seq<DayRow>) {
    && |rows| <= MAX_DIGEST_ROWS && ClaimCount(Bases(rows)) <= MAX_DIGEST_CLAIMS
    && AllIdentified(rows)
  }

  /** The source joins summaries over the current revision, but checks all the same. */
  predicate Identified(row: DayRow) { row.summary.Some? ==> row.revision.Some? }

  predicate AllIdentified(rows: seq<DayRow>) { forall k :: 0 <= k < |rows| ==> Identified(rows[k]) }

  /** Row by row. */
  ghost predicate BuiltRows(rows: seq<DayRow>, words: Utf16 -> seq<WordToken>, out: seq<DigestRow>) {
    |out| <= |rows|
    && (out != [] ==>
          && BuiltRow(rows[|out| - 1], words, out[|out| - 1])
          && BuiltRows(rows, words, out[..|out| - 1]))
  }

  ghost predicate BuiltDigest(date: Utf16, host: Utf16, rows: seq<DayRow>, words: Utf16 -> seq<WordToken>, d: Digest) {
    && Buildable(rows) && |d.rows| == |rows| && BuiltRows(rows, words, d.rows)
    && d == Digest(host, date, |rows|, SumSpeech(d.rows), true, d.rows)
  }

  /** One row of the day, and the claims so far. */
  method BuildStep(rows: seq<DayRow>, words: Utf16 -> seq<WordToken>, k: nat, claimCount: nat)
    returns (r: Result<(DigestRow, nat), BuildError>)
    requires k < |rows| <= MAX_DIGEST_ROWS && AllSegmented(rows[k])
    requires Buildable(rows[..k]) && claimCount == ClaimCount(Bases(rows[..k]))
    ensures r.Ok? ==>
      && BuiltRow(rows[k], words, r.value.0)
      && r.value.1 == ClaimCount(Bases(rows[..k + 1])) && Buildable(rows[..k + 1])
    ensures r.Err? ==> !Buildable(rows)
  {
    StepBuildable(rows, k);
    if rows[k].summary.Some? && rows[k].revision.None? { return Err(UnidentifiedSummary); }
    var next := BuildRow(rows[k], words);
    var count := claimCount + |next.provenance.value.claims|;
    if count > MAX_DIGEST_CLAIMS { return Err(TooManyClaims); }
    r := Ok((next, count));
  }

  method BuildDigest(date: Utf16, host: Utf16, rows: seq<DayRow>, words: Utf16 -> seq<WordToken>)
    returns (r: Result<Digest, BuildError>)
    requires forall k :: 0 <= k < |rows| ==> AllSegmented(rows[k])
    ensures r.Ok? <==> Buildable(rows)
    ensures r.Ok? ==> BuiltDigest(date, host, rows, words, r.value)
  {
    if |rows| > MAX_DIGEST_ROWS { return Err(TooManySessions); }
    var claimCount, out: seq<DigestRow>, totalSpeechMs := 0, [], 0.0;
    for k := 0 to |rows|
      invariant |out| == k && BuiltRows(rows, words, out) && Buildable(rows[..k])
      invariant claimCount == ClaimCount(Bases(rows[..k])) && totalSpeechMs == SumSpeech(out)
    {
      var next := BuildStep(rows, words, k, claimCount);
      if next.Err? { return Err(next.error); }
      OneMoreBuilt(rows, words, out, next.value.0);
      OneMoreSpeech(out, next.value.0);
      totalSpeechMs, claimCount := totalSpeechMs + next.value.0.speechMs, next.value.1;
      out := out + [next.value.0];
    }
    assert rows[..|rows|] == rows;
    r := Ok(Digest(host, date, |rows|, totalSpeechMs, true, out));
  }

  lemma OneMoreSpeech(out: seq<DigestRow>, next: DigestRow)
    ensures SumSpeech(out + [next]) == SumSpeech(out) + next.speechMs
  {
    assert (out + [next])[..|out|] == out;
  }

  lemma OneMoreBuilt(rows: seq<DayRow>, words: Utf16 -> seq<WordToken>, out: seq<DigestRow>, next: DigestRow)
    requires BuiltRows(rows, words, out) && |out| < |rows| && BuiltRow(rows[|out|], words, next)
    ensures BuiltRows(rows, words, out + [next])
  {
    var all := out + [next];
    assert all[..|all| - 1] == out && all[|all| - 1] == next;
    assert rows[|all| - 1] == rows[|out|];
  }

  lemma IdentifiedStep(rows: seq<DayRow>, k: nat)
    requires k < |rows|
    ensures AllIdentified(rows[..k + 1]) <==> AllIdentified(rows[..k]) && Identified(rows[k])
    ensures AllIdentified(rows) ==> AllIdentified(rows[..k + 1])
  {
    var front, more := rows[..k], rows[..k + 1];
    assert forall j :: 0 <= j < k ==> more[j] == front[j];
    assert more[k] == rows[k];
  }

  lemma CountStep(rows: seq<DayRow>, k: nat)
    requires k < |rows|
    ensures ClaimCount(Bases(rows[..k + 1])) == ClaimCount(Bases(rows[..k])) + |Coordinates(BaseOf(rows[k]))|
    ensures ClaimCount(Bases(rows[..k + 1])) <= ClaimCount(Bases(rows))
  {
    assert Bases(rows[..k + 1])[..k] == Bases(rows[..k]);
    CountGrows(rows, k + 1);
  }

  /** One more row keeps a day buildable exactly when it is identified and its claims fit;
      if it does not, the whole day is not buildable. */
  lemma StepBuildable(rows: seq<DayRow>, k: nat)
    requires k < |rows| <= MAX_DIGEST_ROWS && Buildable(rows[..k])
    ensures
      var count := ClaimCount(Bases(rows[..k])) + |Coordinates(BaseOf(rows[k]))|;
      && count == ClaimCount(Bases(rows[..k + 1]))
      && (Buildable(rows[..k + 1]) <==> Identified(rows[k]) && count <= MAX_DIGEST_CLAIMS)
      && (Buildable(rows) ==> Buildable(rows[..k + 1]))
  {
    CountStep(rows, k);
    IdentifiedStep(rows, k);
  }

  lemma {:induction false} CountGrows(rows: seq<DayRow>, k: nat)
    requires k <= |rows|
    ensures ClaimCount(Bases(rows[..k])) <= ClaimCount(Bases(rows))
  {
    if k == |rows| {
      assert rows[..k] == rows;
    } else {
      var front := rows[..|rows| - 1];
      assert front[..k] == rows[..k];
      assert Bases(rows)[..|rows| - 1] == Bases(front);
      CountGrows(front, k);
    }
  }
}

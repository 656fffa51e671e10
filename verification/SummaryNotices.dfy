/** The notices a summary can carry (src/llm/summary-plan.ts:297-325, src/llm/ollama.ts:212-230
    and 406-470): each is visible and fits a list item, whatever it reports. */
module SummaryNotices {

  import opened Text
  import opened SummarySchema
  import opened SummaryMerge
  import opened SummaryProvenance
  import opened SummaryAggregate
  import opened SummaryParse
  import opened SummaryStorage
  import opened SummaryCompletion
  import opened AggregateStorage

  /** The largest integer the source's numbers count up to. */
  const MAX_SAFE_INTEGER := 0x1F_FFFF_FFFF_FFFF

  function Listed(parts: seq<string>, separator: string): string {
    if parts == [] then ""
    else if |parts| == 1 then parts[0]
    else Listed(parts[..|parts| - 1], separator) + separator + parts[|parts| - 1]
  }

  function Lengths(parts: seq<string>): nat {
    if parts == [] then 0 else Lengths(parts[..|parts| - 1]) + |parts[|parts| - 1]|
  }

  lemma {:induction false} ListedLength(parts: seq<string>, separator: string)
    ensures |Listed(parts, separator)| <= Lengths(parts) + |parts| * |separator|
  {
    if parts != [] {
      ListedLength(parts[..|parts| - 1], separator);
      if |parts| == 1 {
        assert parts[..0] == [];
      } else {
        assert |parts| * |separator| == (|parts| - 1) * |separator| + |separator|;
      }
    }
  }

  lemma {:induction false} LengthsAppend(a: seq<string>, b: seq<string>)
    ensures Lengths(a + b) == Lengths(a) + Lengths(b)
  {
    if b == [] {
      assert a + b == a;
    } else {
      assert (a + b)[..|a + b| - 1] == a + b[..|b| - 1];
      LengthsAppend(a, b[..|b| - 1]);
    }
  }

  // ------------------------------------------------------------------------ numerals

  function Power(k: nat): nat { if k == 0 then 1 else 10 * Power(k - 1) }

  lemma {:induction false} NumeralLength(n: nat, k: nat)
    requires 0 < k && n < Power(k)
    ensures |Decimal(n)| <= k
  {
    if n >= 10 {
      assert Power(1) == 10 * Power(0);
      NumeralLength(n / 10, k - 1);
    }
  }

  lemma PowerOfThree(k: nat)
    ensures Power(k + 3) == 1000 * Power(k)
  {
    assert Power(k + 3) == 10 * Power(k + 2) && Power(k + 2) == 10 * Power(k + 1);
  }

  lemma LargePowers()
    ensures Power(9) == 1_000_000_000 && Power(16) == 10_000_000_000_000_000
  {
    PowerOfThree(0);
    PowerOfThree(3);
    PowerOfThree(6);
    PowerOfThree(9);
    PowerOfThree(12);
  }

  lemma SafeNumeral(n: nat)
    requires n <= MAX_SAFE_INTEGER
    ensures |Decimal(n)| <= 16
  {
    LargePowers();
    NumeralLength(n, 16);
  }

  // ------------------------------------------------------------------------- wording

  lemma Visible(opening: string, rest: string)
    requires opening != [] && 'A' <= opening[0] <= 'Z'
    ensures Trim(Units(opening + rest)) != [] && Units(opening + rest) != []
    ensures Units(opening + rest)[0] == (opening[0] as int) as CodeUnit
  {
    assert Units(opening + rest)[0] == (opening[0] as int) as CodeUnit;
    TrimVisible(Units(opening + rest));
  }

  // ------------------------------------------------------- what an aggregate dropped

  function Wording(d: Dropped): string {
    match d
    case Items(field, count) => Name(field) + ": " + Decimal(count)
    case Characters(count) => "summary characters: " + Decimal(count)
    case ReservedForNotice => "uncertainties reserved for bound notice: 1"
  }

  function Wordings(overflow: seq<Dropped>): seq<string> {
    seq(|overflow|, k requires 0 <= k < |overflow| => Wording(overflow[k]))
  }

  function OverflowText(omitted: string): string {
    "Aggregation output bound reached; omitted "
    + (omitted + ". Review the complete transcript for those details.")
  }

  function OverflowNotice(overflow: seq<Dropped>): Utf16 { Units(OverflowText(Listed(Wordings(overflow), ", "))) }

  lemma OverflowTextFits(omitted: string)
    ensures |Units(OverflowText(omitted))| == 93 + |omitted| && Trim(Units(OverflowText(omitted))) != []
    ensures Units(OverflowText(omitted))[0] == 0x41
  {
    Visible("Aggregation output bound reached; omitted ",
            omitted + ". Review the complete transcript for those details.");
  }

  lemma OverflowNoticeVisible(overflow: seq<Dropped>)
    ensures Trim(OverflowNotice(overflow)) != []
  {
    OverflowTextFits(Listed(Wordings(overflow), ", "));
  }

  /** At most nine-digit counts. */
  predicate Countable(d: Dropped) { d.ReservedForNotice? || d.count < 1_000_000_000 }

  lemma WordingLength(d: Dropped)
    requires Countable(d)
    ensures |Wording(d)| <= if d.Items? then 24 else if d.Characters? then 29 else 42
  {
    if !d.ReservedForNotice? {
      LargePowers();
      NumeralLength(d.count, 9);
    }
  }

  lemma {:induction false} CutAwayLengths(lists: map<ClaimField, seq<Utf16>>, fields: seq<ClaimField>)
    requires forall f :: f in lists ==> |lists[f]| < 1_000_000_000
    ensures var cut := CutAway(lists, fields); |cut| <= |fields| && Lengths(Wordings(cut)) <= 24 * |fields|
  {
    if fields != [] {
      var front, last := fields[..|fields| - 1], fields[|fields| - 1];
      CutAwayLengths(lists, front);
      if TooMany(lists, last) {
        var d := Items(last, |lists[last]| - MAX_ITEMS);
        assert Wordings(CutAway(lists, front) + [d])[..|CutAway(lists, front)|] == Wordings(CutAway(lists, front));
        WordingLength(d);
      } else {
        assert CutAway(lists, fields) == CutAway(lists, front);
      }
    }
  }

  lemma WordingsOf(a: seq<Dropped>, b: seq<Dropped>)
    ensures Wordings(a + b) == Wordings(a) + Wordings(b)
  {
    forall k | 0 <= k < |a + b| ensures Wordings(a + b)[k] == (Wordings(a) + Wordings(b))[k] { }
  }

  lemma WordingsAppend(a: seq<Dropped>, b: seq<Dropped>)
    ensures Lengths(Wordings(a + b)) == Lengths(Wordings(a)) + Lengths(Wordings(b))
  {
    WordingsOf(a, b);
    LengthsAppend(Wordings(a), Wordings(b));
  }

  lemma OneWording(d: Dropped)
    ensures Lengths(Wordings([d])) == |Wording(d)| && Wordings([]) == []
  {
    assert Wordings([d]) == [Wording(d)] && [Wording(d)][..0] == [];
  }

  lemma ReportLengths(s: State, joined: Utf16)
    requires |joined| < 1_000_000_000 && forall f :: f in s.lists ==> |s.lists[f]| < 1_000_000_000
    ensures var report := Report(s, joined); |report| <= 11 && Lengths(Wordings(report)) <= 287
  {
    var cut := CutAway(s.lists, LIST_FIELDS);
    CutAwayLengths(s.lists, LIST_FIELDS);
    if |joined| > MAX_SUMMARY {
      var characters := Characters(|joined| - MAX_SUMMARY);
      WordingsAppend(cut, [characters]);
      OneWording(characters);
      WordingLength(characters);
    } else {
      assert cut + [] == cut;
    }
    WordingsAppend(Excess(s, joined), [ReservedForNotice]);
    OneWording(ReservedForNotice);
    assert Excess(s, joined) + [] == Excess(s, joined);
  }

  lemma OverflowNoticeLength(overflow: seq<Dropped>)
    requires |overflow| <= 11 && Lengths(Wordings(overflow)) <= 287
    ensures |OverflowNotice(overflow)| <= MAX_ITEM_LENGTH
  {
    LongListLength(Wordings(overflow));
    OverflowTextFits(Listed(Wordings(overflow), ", "));
  }

  lemma LongListLength(parts: seq<string>)
    requires |parts| <= 11 && Lengths(parts) <= 287
    ensures |Listed(parts, ", ")| <= 309
  {
    ListedLength(parts, ", ");
  }

  lemma {:induction false} ItemsBound(results: seq<ChunkSummary>, f: ClaimField)
    requires AllHaveLists(results) && AllWithinBounds(results) && f in LIST_FIELDS
    ensures |AllItems(results, f)| <= MAX_ITEMS * |results|
  {
    if results != [] {
      ItemsBound(results[..|results| - 1], f);
      assert WithinBounds(results[|results| - 1].summary);
      assert Readable(results[|results| - 1].summary.lists[f]);
    }
  }

  lemma {:induction false} OccurrencesBound(norm: Utf16 -> Utf16, items: seq<Utf16>)
    ensures |FirstOccurrences(norm, items)| <= |items|
  {
    if items != [] { OccurrencesBound(norm, items[..|items| - 1]); }
  }

  lemma {:induction false} JoinedBound(results: seq<ChunkSummary>)
    requires AllWithinBounds(results)
    ensures |SummaryParts(results)| <= |results| && |Joined(SummaryParts(results))| <= (MAX_SUMMARY + 2) * |results|
  {
    if results != [] {
      var front, last := results[..|results| - 1], results[|results| - 1];
      JoinedBound(front);
      assert WithinBounds(last.summary);
      TrimFacts(last.summary.summary);
      var part := Trim(last.summary.summary);
      JoinedOneMore(SummaryParts(front), part);
      assert SummaryParts(front) + [] == SummaryParts(front);
    }
  }

  lemma JoinedOneMore(parts: seq<Utf16>, part: Utf16)
    ensures |Joined(parts + [part])| <= |Joined(parts)| + 2 + |part|
  {
    assert (parts + [part])[..|parts|] == parts;
  }

  /** The notice of what an aggregate of answers dropped fits a list item. */
  lemma OverflowNoticeFits(norm: Utf16 -> Utf16, results: seq<ChunkSummary>)
    requires AllHaveLists(results) && AllWithinBounds(results) && |results| <= MAX_SUMMARY_CHUNK_CALLS
    ensures |OverflowNotice(Report(Merged(norm, results), Joined(SummaryParts(results))))| <= MAX_ITEM_LENGTH
  {
    var s, joined := Merged(norm, results), Joined(SummaryParts(results));
    JoinedBound(results);
    MergedOrder(norm, results);
    forall f | f in s.lists ensures |s.lists[f]| < 1_000_000_000 {
      MergedLists(norm, results, f);
      ItemsBound(results, f);
      OccurrencesBound(norm, AllItems(results, f));
    }
    ReportLengths(s, joined);
    OverflowNoticeLength(Report(s, joined));
  }

  // --------------------------------------------------------------- missing chunks

  function ResponseCount(count: nat, description: string): string {
    Decimal(count) + " " + description + " chunk response" + if count == 1 then "" else "s"
  }

  function IncompleteReasons(c: Completion, timeoutMs: nat): seq<string> {
    (if c.malformedChunks > 0 then ["rejected " + ResponseCount(c.malformedChunks, "malformed JSON")] else []) +
    (if c.schemaInvalidChunks > 0 then ["rejected " + ResponseCount(c.schemaInvalidChunks, "schema-invalid")] else []) +
    (if c.deadlineReached then ["reached the overall " + Decimal(timeoutMs) + " ms deadline"]
     else if c.plannedChunks > MAX_SUMMARY_CHUNK_CALLS
     then ["reached the " + Decimal(MAX_SUMMARY_CHUNK_CALLS) + "-chunk work limit"] else [])
  }

  function IncompleteText(answered: string, planned: string, reasons: string): string {
    "Long-session summary incomplete: processed "
    + (answered + " of " + planned + " chunks; " + reasons + ". The complete transcript remains available.")
  }

  function IncompleteNotice(answered: nat, c: Completion, timeoutMs: nat): Utf16 {
    Units(IncompleteText(Decimal(answered), Decimal(c.plannedChunks), Listed(IncompleteReasons(c, timeoutMs), "; ")))
  }

  lemma IncompleteTextFits(answered: string, planned: string, reasons: string)
    ensures |Units(IncompleteText(answered, planned, reasons))| == 100 + |answered| + |planned| + |reasons|
    ensures Trim(Units(IncompleteText(answered, planned, reasons))) != []
    ensures Units(IncompleteText(answered, planned, reasons))[0] == 0x4C
  {
    Visible("Long-session summary incomplete: processed ",
            answered + " of " + planned + " chunks; " + reasons + ". The complete transcript remains available.");
  }

  predicate Safe(answered: nat, c: Completion, timeoutMs: nat) {
    && answered <= MAX_SAFE_INTEGER && c.plannedChunks <= MAX_SAFE_INTEGER && timeoutMs <= MAX_SAFE_INTEGER
    && c.malformedChunks <= MAX_SAFE_INTEGER && c.schemaInvalidChunks <= MAX_SAFE_INTEGER
  }

  lemma {:induction false} LengthsOfShort(parts: seq<string>, bound: nat)
    requires forall k :: 0 <= k < |parts| ==> |parts[k]| <= bound
    ensures Lengths(parts) <= bound * |parts|
  {
    if parts != [] {
      LengthsOfShort(parts[..|parts| - 1], bound);
      assert bound * |parts| == bound * (|parts| - 1) + bound;
    }
  }

  lemma ReasonsLength(c: Completion, timeoutMs: nat)
    requires Safe(0, c, timeoutMs)
    ensures var reasons := IncompleteReasons(c, timeoutMs);
      |reasons| <= 3 && forall k :: 0 <= k < |reasons| ==> |reasons[k]| <= 60
  {
    SafeNumeral(c.malformedChunks);
    SafeNumeral(c.schemaInvalidChunks);
    SafeNumeral(timeoutMs);
    SafeNumeral(MAX_SUMMARY_CHUNK_CALLS);
  }

  /** The notice of missing chunks is visible and fits a list item. */
  lemma IncompleteNoticeFits(answered: nat, c: Completion, timeoutMs: nat)
    requires Safe(answered, c, timeoutMs)
    ensures |IncompleteNotice(answered, c, timeoutMs)| <= MAX_ITEM_LENGTH
    ensures Trim(IncompleteNotice(answered, c, timeoutMs)) != []
  {
    ListedReasonsLength(c, timeoutMs);
    SafeNumeral(answered);
    SafeNumeral(c.plannedChunks);
    IncompleteTextFits(
      Decimal(answered), Decimal(c.plannedChunks), Listed(IncompleteReasons(c, timeoutMs), "; "));
  }

  lemma ListedReasonsLength(c: Completion, timeoutMs: nat)
    requires Safe(0, c, timeoutMs)
    ensures |Listed(IncompleteReasons(c, timeoutMs), "; ")| <= 186
  {
    ReasonsLength(c, timeoutMs);
    ShortListLength(IncompleteReasons(c, timeoutMs));
  }

  lemma ShortListLength(parts: seq<string>)
    requires |parts| <= 3 && forall k :: 0 <= k < |parts| ==> |parts[k]| <= 60
    ensures |Listed(parts, "; ")| <= 186
  {
    LengthsOfShort(parts, 60);
    ListedLength(parts, "; ");
  }

  // ------------------------------------------------------------- no room for a prompt

  function EnvelopeText(contextTokens: string): string {
    "Summary incomplete: "
    + ("processed 0 chunks because the configured " + contextTokens
       + "-token context cannot fit the bounded prompt envelope (system, schema and chat-template reserve)."
       + " No transcript was sent to the model; the complete transcript remains available.")
  }

  function EnvelopeNotice(contextTokens: nat): Utf16 { Units(EnvelopeText(Decimal(contextTokens))) }

  lemma EnvelopeTextFits(contextTokens: string)
    ensures |Units(EnvelopeText(contextTokens))| == 239 + |contextTokens|
    ensures Trim(Units(EnvelopeText(contextTokens))) != []
  {
    Visible("Summary incomplete: ",
            "processed 0 chunks because the configured " + contextTokens
            + "-token context cannot fit the bounded prompt envelope (system, schema and chat-template reserve)."
            + " No transcript was sent to the model; the complete transcript remains available.");
  }

  lemma EnvelopeNoticeFits(contextTokens: nat)
    requires contextTokens <= MAX_SAFE_INTEGER
    ensures |EnvelopeNotice(contextTokens)| <= MAX_ITEM_LENGTH && Trim(EnvelopeNotice(contextTokens)) != []
  {
    SafeNumeral(contextTokens);
    EnvelopeTextFits(Decimal(contextTokens));
  }
}

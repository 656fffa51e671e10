/** What is made of one answer of the model (src/llm/ollama.ts:290-340): its texts are cut
    between graphemes before it is read, so reading cuts none, and what the bounds drop is
    announced. */
module SummaryAnswer {

  import opened Common
  import opened SummarySchema
  import opened SummaryAggregate
  import opened SummaryParse
  import opened SummaryStorage
  import opened StableSummary
  import opened SummaryCompletion
  import opened AggregateStorage

  // ------------------------------------------------------------------ whole graphemes

  /** The leading graphemes that fit. */
  function WholeGraphemes(segments: seq<Utf16>, limit: nat): Utf16 {
    if segments == [] || |segments[0]| > limit then []
    else segments[0] + WholeGraphemes(segments[1..], limit - |segments[0]|)
  }

  function Clip(value: Utf16, limit: nat, segmenter: Utf16 -> seq<Utf16>): Utf16 {
    if |value| <= limit then value else WholeGraphemes(segmenter(value), limit)
  }

  lemma {:induction false} ClipFits(segments: seq<Utf16>, limit: nat)
    ensures |WholeGraphemes(segments, limit)| <= limit
  {
    if segments != [] && |segments[0]| <= limit { ClipFits(segments[1..], limit - |segments[0]|); }
  }

  lemma {:induction false} ConcatFirst(first: Utf16, rest: seq<Utf16>)
    ensures Concat([first] + rest) == first + Concat(rest)
  {
    var all := [first] + rest;
    if rest == [] {
      assert all[..0] == [] && Concat(all[..0]) == [];
    } else {
      assert all[..|all| - 1] == [first] + rest[..|rest| - 1];
      ConcatFirst(first, rest[..|rest| - 1]);
    }
  }

  /** One more grapheme would not fit. */
  lemma {:induction false} ClipIsLongest(segments: seq<Utf16>, limit: nat) returns (n: nat)
    ensures n <= |segments| && WholeGraphemes(segments, limit) == Concat(segments[..n])
    ensures n < |segments| ==> |WholeGraphemes(segments, limit)| + |segments[n]| > limit
    decreases |segments|
  {
    n := 0;
    assert segments[..0] == [];
    if segments != [] && |segments[0]| <= limit {
      var rest := ClipIsLongest(segments[1..], limit - |segments[0]|);
      n := rest + 1;
      assert segments[..n] == [segments[0]] + segments[1..][..rest];
      ConcatFirst(segments[0], segments[1..][..rest]);
    }
  }

  method TruncateGraphemes(value: Utf16, limit: nat, segmenter: Utf16 -> seq<Utf16>) returns (bounded: Utf16)
    ensures bounded == Clip(value, limit, segmenter)
  {
    if |value| <= limit { return value; }
    var segments := segmenter(value);
    bounded := [];
    for k := 0 to |segments|
      invariant |bounded| <= limit
      invariant bounded + WholeGraphemes(segments[k..], limit - |bounded|) == WholeGraphemes(segments, limit)
    {
      assert segments[k..][0] == segments[k] && segments[k..][1..] == segments[k + 1..];
      if |bounded| + |segments[k]| > limit { return; }
      bounded := bounded + segments[k];
    }
  }

  // ----------------------------------------------------------------- the clipped answer

  function ClipText(value: Json, segmenter: Utf16 -> seq<Utf16>): Json {
    if value.Str? then Str(Clip(value.text, MAX_ITEM_LENGTH, segmenter)) else value
  }

  function ClipItems(items: seq<Json>, segmenter: Utf16 -> seq<Utf16>): seq<Json> {
    seq(|items|, i requires 0 <= i < |items| => ClipText(items[i], segmenter))
  }

  type Record = map<string, Json>

  function ClipSummary(record: Record, segmenter: Utf16 -> seq<Utf16>): Record {
    if Name(Summary) in record && record[Name(Summary)].Str? then
      record[Name(Summary) := Str(Clip(record[Name(Summary)].text, MAX_SUMMARY, segmenter))]
    else record
  }

  /** `base` with the given list fields clipped. */
  function ClipLists(record: Record, base: Record, fields: seq<ClaimField>, segmenter: Utf16 -> seq<Utf16>): Record {
    if fields == [] then base
    else
      var front, name := ClipLists(record, base, fields[..|fields| - 1], segmenter), Name(fields[|fields| - 1]);
      if name in record && record[name].Arr? then front[name := Arr(ClipItems(record[name].items, segmenter))]
      else front
  }

  function ClipAnswer(record: Record, segmenter: Utf16 -> seq<Utf16>): Record {
    ClipLists(record, ClipSummary(record, segmenter), LIST_FIELDS, segmenter)
  }

  // ---------------------------------------------------------------------- its overflow

  function Strings(items: seq<Json>): seq<Utf16> {
    if items == [] then []
    else
      Strings(items[..|items| - 1]) + if items[|items| - 1].Str? then [items[|items| - 1].text] else []
  }

  predicate ListOverflows(value: Json) {
    value.Arr? && (|Strings(value.items)| > MAX_ITEMS || !ShortItems(Strings(value.items)))
  }

  predicate AnswerOverflows(record: Record) {
    || (Get(Obj(record), Name(Summary)).Str? && |Get(Obj(record), Name(Summary)).text| > MAX_SUMMARY)
    || exists f :: f in LIST_FIELDS && ListOverflows(Get(Obj(record), Name(f)))
  }

  const ANSWER_NOTICE: Utf16 :=
    Units("Model output exceeded " + ("structured summary bounds; some chunk details were omitted. "
          + "Review the complete transcript."))

  lemma ParsedLists(raw: Json)
    ensures Uncertainties in Parse(raw).lists
  {
    ListFieldsDistinct();
  }

  function ReadAnswer(record: Record, segmenter: Utf16 -> seq<Utf16>): StructuredSummary {
    var parsed := Parse(Obj(ClipAnswer(record, segmenter)));
    ParsedLists(Obj(ClipAnswer(record, segmenter)));
    if !AnswerOverflows(record) then parsed
    else
      var retained := Take(parsed.lists[Uncertainties], MAX_ITEMS - 1);
      parsed.(lists := parsed.lists[Uncertainties := retained + [ANSWER_NOTICE]],
              claimEvidence := WithoutFrom(parsed.claimEvidence, |retained|))
  }

  // --------------------------------------------------------------------- as it is done

  method TruncateItems(items: seq<Json>, segmenter: Utf16 -> seq<Utf16>) returns (r: seq<Json>)
    ensures r == ClipItems(items, segmenter)
  {
    r := [];
    for i := 0 to |items|
      invariant r == ClipItems(items, segmenter)[..i]
    {
      var item := items[i];
      if item.Str? {
        var text := TruncateGraphemes(item.text, MAX_ITEM_LENGTH, segmenter);
        item := Str(text);
      }
      assert item == ClipItems(items, segmenter)[i];
      r := r + [item];
    }
  }

  method ParseChunkSummary(record: Record, segmenter: Utf16 -> seq<Utf16>) returns (r: StructuredSummary)
    ensures r == ReadAnswer(record, segmenter)
  {
    var overflow := AnswerOverflows(record);
    var bounded := record;
    if Name(Summary) in record && record[Name(Summary)].Str? {
      var text := TruncateGraphemes(record[Name(Summary)].text, MAX_SUMMARY, segmenter);
      bounded := bounded[Name(Summary) := Str(text)];
    }
    for k := 0 to |LIST_FIELDS|
      invariant bounded == ClipLists(record, ClipSummary(record, segmenter), LIST_FIELDS[..k], segmenter)
    {
      assert LIST_FIELDS[..k + 1][..k] == LIST_FIELDS[..k];
      var name := Name(LIST_FIELDS[k]);
      if name in record && record[name].Arr? {
        var items := TruncateItems(record[name].items, segmenter);
        bounded := bounded[name := Arr(items)];
      }
    }
    assert LIST_FIELDS[..|LIST_FIELDS|] == LIST_FIELDS;
    var parsed := Parse(Obj(bounded));
    ParsedLists(Obj(bounded));
    if !overflow { return parsed; }
    var retained := Take(parsed.lists[Uncertainties], MAX_ITEMS - 1);
    r := parsed.(lists := parsed.lists[Uncertainties := retained + [ANSWER_NOTICE]],
                 claimEvidence := WithoutFrom(parsed.claimEvidence, |retained|));
  }

  // -------------------------------------------------------------------- short by then

  lemma NamesApart(f: ClaimField, g: ClaimField)
    requires f != g
    ensures Name(f) != Name(g)
  {
    NamesDiffer(f, g);
  }

  lemma {:induction false} ClippedField(
    record: Record, base: Record, fields: seq<ClaimField>, segmenter: Utf16 -> seq<Utf16>, f: ClaimField)
    ensures Get(Obj(ClipLists(record, base, fields, segmenter)), Name(f)) ==
      if f in fields && Get(Obj(record), Name(f)).Arr? then Arr(ClipItems(Get(Obj(record), Name(f)).items, segmenter))
      else Get(Obj(base), Name(f))
  {
    if fields != [] {
      var front, last := fields[..|fields| - 1], fields[|fields| - 1];
      assert fields == front + [last];
      ClippedField(record, base, front, segmenter, f);
      if f != last { NamesApart(f, last); }
    }
  }

  lemma ClippedList(record: Record, segmenter: Utf16 -> seq<Utf16>, f: ClaimField)
    requires f in LIST_FIELDS
    ensures var value := Get(Obj(record), Name(f));
      Get(Obj(ClipAnswer(record, segmenter)), Name(f)) ==
        if value.Arr? then Arr(ClipItems(value.items, segmenter)) else value
  {
    ListFieldsDistinct();
    NamesApart(f, Summary);
    ClippedField(record, ClipSummary(record, segmenter), LIST_FIELDS, segmenter, f);
  }

  lemma ClippedSummary(record: Record, segmenter: Utf16 -> seq<Utf16>)
    ensures var value := Get(Obj(record), Name(Summary));
      Get(Obj(ClipAnswer(record, segmenter)), Name(Summary)) ==
        if value.Str? then Str(Clip(value.text, MAX_SUMMARY, segmenter)) else value
  {
    ListFieldsDistinct();
    ClippedField(record, ClipSummary(record, segmenter), LIST_FIELDS, segmenter, Summary);
  }

  lemma ClippedItemsShort(items: seq<Json>, segmenter: Utf16 -> seq<Utf16>)
    ensures ShortTexts(ClipItems(items, segmenter))
  {
    forall i | 0 <= i < |items| && items[i].Str?
      ensures |Clip(items[i].text, MAX_ITEM_LENGTH, segmenter)| <= MAX_ITEM_LENGTH
    {
      ClipFits(segmenter(items[i].text), MAX_ITEM_LENGTH);
    }
  }

  lemma ClippedIsShort(record: Record, segmenter: Utf16 -> seq<Utf16>)
    ensures ShortJson(Obj(ClipAnswer(record, segmenter)))
  {
    ClippedSummary(record, segmenter);
    var summary := Get(Obj(record), Name(Summary));
    if summary.Str? { ClipFits(segmenter(summary.text), MAX_SUMMARY); }
    forall f | f in LIST_FIELDS ensures ShortList(Get(Obj(ClipAnswer(record, segmenter)), Name(f))) {
      ClippedList(record, segmenter, f);
      var value := Get(Obj(record), Name(f));
      if value.Arr? { ClippedItemsShort(value.items, segmenter); }
    }
  }

  // ------------------------------------------------------------------ what it promises

  lemma AnswerNoticeFits()
    ensures |ANSWER_NOTICE| <= MAX_ITEM_LENGTH && Settled(ANSWER_NOTICE, MAX_ITEM_LENGTH)
    ensures Trim(ANSWER_NOTICE) != []
  {
    assert |ANSWER_NOTICE| == 113;
    assert ANSWER_NOTICE[0] == 0x4D;
    assert ANSWER_NOTICE[112] == 0x2E;
    TrimVisible(ANSWER_NOTICE);
  }

  lemma {:induction false} SameClaims(claims: seq<ClaimEvidence>, n: nat)
    requires forall c :: c in claims && c.field == Uncertainties ==> c.item < n
    ensures WithoutFrom(claims, Min(n, MAX_ITEMS - 1)) == WithoutFrom(claims, MAX_ITEMS - 1)
  {
    if claims != [] {
      var front, last := claims[..|claims| - 1], claims[|claims| - 1];
      assert claims == front + [last] && last in claims;
      SameClaims(front, n);
    }
  }

  /** An answer over the bounds is marked just as an incomplete summary is. */
  lemma AnswerIsMarked(record: Record, segmenter: Utf16 -> seq<Utf16>)
    ensures var parsed := Parse(Obj(ClipAnswer(record, segmenter)));
      && Uncertainties in parsed.lists
      && ReadAnswer(record, segmenter) ==
           if AnswerOverflows(record) then WithIncompleteNotice(parsed, ANSWER_NOTICE) else parsed
  {
    var parsed := Parse(Obj(ClipAnswer(record, segmenter)));
    ParsedLists(Obj(ClipAnswer(record, segmenter)));
    ParsedStorable(Obj(ClipAnswer(record, segmenter)));
    forall c | c in parsed.claimEvidence && c.field == Uncertainties
      ensures c.item < |parsed.lists[Uncertainties]|
    {
      var k :| 0 <= k < |parsed.claimEvidence| && parsed.claimEvidence[k] == c;
      assert PointsAtItem(parsed, parsed.claimEvidence[k]);
    }
    SameClaims(parsed.claimEvidence, |parsed.lists[Uncertainties]|);
  }

  /** Whatever the model answers, what is made of it is within all bounds and is read again
      unchanged. */
  lemma AnswerWithinBounds(record: Record, segmenter: Utf16 -> seq<Utf16>)
    ensures var r := ReadAnswer(record, segmenter); WithinBounds(r) && Parse(Stored(r)) == r
  {
    var raw, r := Obj(ClipAnswer(record, segmenter)), ReadAnswer(record, segmenter);
    ClippedIsShort(record, segmenter);
    ParsedWithinBounds(raw);
    RereadingShortIsExact(raw);
    AnswerIsMarked(record, segmenter);
    AnswerNoticeFits();
    if AnswerOverflows(record) {
      MarkedWithinBounds(Parse(raw), ANSWER_NOTICE);
      MarkedSettled(Parse(raw), ANSWER_NOTICE);
    }
    StorageIsExactIff(r);
  }

  lemma MarkedSettled(s: StructuredSummary, notice: Utf16)
    requires Uncertainties in s.lists && AllSettled(s) && Settled(notice, MAX_ITEM_LENGTH)
    ensures AllSettled(WithIncompleteNotice(s, notice))
  {
    assert ItemsSettled(s.lists[Uncertainties]);
    assert ItemsSettled(Take(s.lists[Uncertainties], MAX_ITEMS - 1) + [notice]);
  }

  /** The texts that are visible, trimmed. */
  function VisibleTexts(texts: seq<Utf16>): seq<Utf16> {
    if texts == [] then []
    else
      VisibleTexts(texts[..|texts| - 1]) +
      if Trim(texts[|texts| - 1]) == [] then [] else [Trim(texts[|texts| - 1])]
  }

  lemma {:induction false} VisibleTextsBound(texts: seq<Utf16>)
    ensures |VisibleTexts(texts)| <= |texts|
  {
    if texts != [] { VisibleTextsBound(texts[..|texts| - 1]); }
  }

  lemma VisibleTextsAppend(texts: seq<Utf16>, last: Utf16)
    ensures VisibleTexts(texts + [last]) == VisibleTexts(texts) + if Trim(last) == [] then [] else [Trim(last)]
  {
    assert (texts + [last])[..|texts|] == texts;
  }

  /** Only the last element can be one string more. */
  lemma LastString(items: seq<Json>)
    requires items != []
    ensures var front, last := Strings(items[..|items| - 1]), items[|items| - 1];
      Strings(items) == if last.Str? then front + [last.text] else front
  {
  }

  lemma ShortFront(texts: seq<Utf16>, last: Utf16)
    requires ShortItems(texts + [last])
    ensures ShortItems(texts) && |last| <= MAX_ITEM_LENGTH
  {
    assert (texts + [last])[|texts|] == last;
    forall i | 0 <= i < |texts| ensures |texts[i]| <= MAX_ITEM_LENGTH { assert (texts + [last])[i] == texts[i]; }
  }

  lemma {:induction false} AllItemsRead(items: seq<Json>)
    requires |Strings(items)| <= MAX_ITEMS && ShortItems(Strings(items))
    ensures CoercedItems(items, |items|).values == VisibleTexts(Strings(items))
  {
    if items != [] {
      var n := |items| - 1;
      var texts := Strings(items[..n]);
      LastString(items);
      if items[n].Str? {
        ShortFront(texts, items[n].text);
        VisibleTextsAppend(texts, items[n].text);
        ShortTextSettled(items[n].text, MAX_ITEM_LENGTH);
        VisibleTextsBound(texts);
      }
      AllItemsRead(items[..n]);
      FewerItems(items, n);
    }
  }

  lemma {:induction false} FewerItems(items: seq<Json>, n: nat)
    requires n < |items|
    ensures CoercedItems(items[..|items| - 1], n) == CoercedItems(items, n)
  {
    if n > 0 { FewerItems(items, n - 1); }
  }

  lemma {:induction false} ShortTextsOf(items: seq<Json>)
    requires ShortItems(Strings(items))
    ensures ShortTexts(items)
  {
    if items != [] {
      var n := |items| - 1;
      assert Strings(items[..n]) <= Strings(items);
      ShortTextsOf(items[..n]);
      assert items == items[..n] + [items[n]];
      if items[n].Str? { assert Strings(items)[|Strings(items)| - 1] == items[n].text; }
    }
  }

  lemma ShortItemsUnclipped(items: seq<Json>, segmenter: Utf16 -> seq<Utf16>)
    requires ShortTexts(items)
    ensures ClipItems(items, segmenter) == items
  {
  }

  /** What a field of the answer holds. */
  function TextsAt(record: Record, f: ClaimField): seq<Utf16> {
    var value := Get(Obj(record), Name(f));
    if value.Arr? then Strings(value.items) else []
  }

  lemma FieldIsRead(record: Record, segmenter: Utf16 -> seq<Utf16>, f: ClaimField)
    requires f in LIST_FIELDS && !ListOverflows(Get(Obj(record), Name(f)))
    ensures var parsed := Parse(Obj(ClipAnswer(record, segmenter)));
      f in parsed.lists && parsed.lists[f] == VisibleTexts(TextsAt(record, f))
  {
    ClippedList(record, segmenter, f);
    var value := Get(Obj(record), Name(f));
    if value.Arr? {
      ShortTextsOf(value.items);
      ShortItemsUnclipped(value.items, segmenter);
      AllItemsRead(value.items);
    }
  }

  lemma SummaryIsRead(record: Record, segmenter: Utf16 -> seq<Utf16>)
    requires var value := Get(Obj(record), Name(Summary)); value.Str? && |value.text| <= MAX_SUMMARY
    ensures Parse(Obj(ClipAnswer(record, segmenter))).summary == Trim(Get(Obj(record), Name(Summary)).text)
  {
    ClippedSummary(record, segmenter);
    ShortTextSettled(Get(Obj(record), Name(Summary)).text, MAX_SUMMARY);
  }

  /** Nothing an answer says is dropped silently: either its summary and every visible text of
      it are kept, in order, or the notice ends the uncertainties and no claim is about it. */
  lemma NothingDroppedSilently(record: Record, segmenter: Utf16 -> seq<Utf16>, f: ClaimField)
    requires f in LIST_FIELDS && Get(Obj(record), Name(Summary)).Str?
    ensures var r := ReadAnswer(record, segmenter);
      && f in r.lists && Uncertainties in r.lists
      && (!AnswerOverflows(record) ==>
            r.summary == Trim(Get(Obj(record), Name(Summary)).text) && r.lists[f] == VisibleTexts(TextsAt(record, f)))
      && (AnswerOverflows(record) ==>
            && r.lists[Uncertainties] != [] && r.lists[Uncertainties][|r.lists[Uncertainties]| - 1] == ANSWER_NOTICE
            && forall c :: c in r.claimEvidence && c.field == Uncertainties ==> c.item < |r.lists[Uncertainties]| - 1)
  {
    ParsedLists(Obj(ClipAnswer(record, segmenter)));
    if AnswerOverflows(record) {
      var parsed := Parse(Obj(ClipAnswer(record, segmenter)));
      WithoutFromFacts(parsed.claimEvidence, |Take(parsed.lists[Uncertainties], MAX_ITEMS - 1)|);
    } else {
      SummaryIsRead(record, segmenter);
      FieldIsRead(record, segmenter, f);
    }
  }

  // ------------------------------------------------------------- what it can come to

  lemma {:induction false} ListsUnclipped(record: Record, fields: seq<ClaimField>, segmenter: Utf16 -> seq<Utf16>)
    requires forall f :: f in fields ==> ShortList(Get(Obj(record), Name(f)))
    ensures ClipLists(record, record, fields, segmenter) == record
  {
    if fields != [] {
      var front, last := fields[..|fields| - 1], fields[|fields| - 1];
      assert fields == front + [last];
      ListsUnclipped(record, front, segmenter);
      var value := Get(Obj(record), Name(last));
      assert last in fields && ShortList(value);
      if value.Arr? { ShortItemsUnclipped(value.items, segmenter); }
    }
  }

  lemma ShortUnclipped(record: Record, segmenter: Utf16 -> seq<Utf16>)
    requires ShortJson(Obj(record))
    ensures ClipAnswer(record, segmenter) == record
  {
    assert ClipSummary(record, segmenter) == record;
    ListsUnclipped(record, LIST_FIELDS, segmenter);
  }

  lemma {:induction false} StringsOfTexts(items: seq<Utf16>)
    ensures Strings(Texts(items).items) == items
  {
    if items != [] {
      var n := |items| - 1;
      assert Texts(items).items[..n] == Texts(items[..n]).items;
      StringsOfTexts(items[..n]);
      assert items == items[..n] + [items[n]];
    }
  }

  lemma StoredListFits(s: StructuredSummary, f: ClaimField)
    requires f in LIST_FIELDS && f in s.lists && Readable(s.lists[f]) && ShortItems(s.lists[f])
    ensures !ListOverflows(Get(Stored(s), Name(f)))
  {
    StoredFields(s, f);
    StringsOfTexts(s.lists[f]);
  }

  lemma StoredFits(s: StructuredSummary)
    requires WithinBounds(s)
    ensures !AnswerOverflows(Stored(s).fields)
  {
    StoredSummary(s);
    forall f | f in LIST_FIELDS ensures !ListOverflows(Get(Stored(s), Name(f))) {
      assert f in s.lists.Keys;
      StoredListFits(s, f);
    }
  }

  /** Every summary within bounds that is trimmed is what some answer comes to: itself, as JSON. */
  lemma SettledIsAnswered(s: StructuredSummary, segmenter: Utf16 -> seq<Utf16>)
    requires WithinBounds(s) && AllSettled(s)
    ensures ReadAnswer(Stored(s).fields, segmenter) == s
  {
    StoredIsShort(s);
    ShortUnclipped(Stored(s).fields, segmenter);
    StoredFits(s);
    StorageIsExactIff(s);
  }
}

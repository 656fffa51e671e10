/** Packing labelled units into chunks (src/llm/summary-plan.ts, `planSummaryChunks`). */
module SummaryChunks {

  import opened Common
  import opened Text
  import opened SummaryPlan

  /** `sourceStart` and `sourceEnd` count UTF-16 code units, as the source does. */
  datatype Chunk = Chunk(
    id: string, index: nat, count: nat, sourceStart: nat, sourceEnd: nat,
    sourceText: string, promptText: string, promptUtf8Bytes: nat, segmentIndexes: seq<nat>)

  // ------------------------------------------------------------ groups of units

  function Sources(group: seq<Unit>): string {
    if group == [] then [] else Sources(group[..|group| - 1]) + group[|group| - 1].source
  }

  /** Prompts of the units, joined by newlines. */
  function Prompts(group: seq<Unit>): string {
    if group == [] then []
    else if |group| == 1 then group[0].prompt
    else Prompts(group[..|group| - 1]) + "\n" + group[|group| - 1].prompt
  }

  function GroupBytes(group: seq<Unit>): nat {
    if group == [] then 0
    else if |group| == 1 then group[0].bytes
    else GroupBytes(group[..|group| - 1]) + 1 + group[|group| - 1].bytes
  }

  /** Segments labelled in the group, in order of first appearance. */
  function Segments(group: seq<Unit>): (s: seq<nat>)
    ensures forall i, j :: 0 <= i < j < |s| ==> s[i] != s[j]
    ensures forall x :: x in s <==> exists k :: 0 <= k < |group| && group[k].segment == Some(x)
  {
    if group == [] then []
    else
      var front, last := group[..|group| - 1], group[|group| - 1];
      assert group == front + [last];
      var before := Segments(front);
      if last.segment.Some? && last.segment.value !in before then before + [last.segment.value] else before
  }

  function Flatten(groups: seq<seq<Unit>>): seq<Unit> {
    if groups == [] then [] else Flatten(groups[..|groups| - 1]) + groups[|groups| - 1]
  }

  lemma {:induction false} PromptBytesTrue(transcript: string, maxBytes: int, group: seq<Unit>)
    requires forall k :: 0 <= k < |group| ==> UnitOf(transcript, maxBytes, group[k])
    ensures Bytes(Prompts(group)) == GroupBytes(group)
  {
    if |group| > 1 {
      var front, last := group[..|group| - 1], group[|group| - 1];
      PromptBytesTrue(transcript, maxBytes, front);
      SizesAppend(Prompts(front) + "\n", last.prompt);
      SizesAppend(Prompts(front), "\n");
      assert Bytes("\n") == Bytes([]) + Utf8Width('\n');
    }
  }

  ghost predicate Slices(transcript: string, group: seq<Unit>) {
    && (forall k :: 0 <= k < |group| ==>
          group[k].start <= group[k].end <= |transcript| && group[k].source == transcript[group[k].start..group[k].end])
    && Linked(group)
  }

  /** Consecutive units hold consecutive text. */
  lemma {:induction false} SourcesTrue(transcript: string, group: seq<Unit>)
    requires group != [] && Slices(transcript, group)
    ensures group[0].start <= group[|group| - 1].end <= |transcript|
    ensures Sources(group) == transcript[group[0].start..group[|group| - 1].end]
  {
    var front, last := group[..|group| - 1], group[|group| - 1];
    if front == [] {
      assert Sources(front) == [] && Sources(group) == [] + last.source;
    } else {
      assert group == front + [last];
      LinkedSplit(front, [last]);
      SourcesTrue(transcript, front);
      var a, b, c := front[0].start, last.start, last.end;
      assert b == front[|front| - 1].end;
      assert transcript[a..b] + transcript[b..c] == transcript[a..c];
    }
  }

  // -------------------------------------------------------------------- packing

  /** Greedy packing: every group fits, and no group had room for the next unit. */
  ghost predicate Packed(units: seq<Unit>, groups: seq<seq<Unit>>, maxBytes: int) {
    Flatten(groups) == units && Greedy(groups, maxBytes)
  }

  function IdOf(index: nat, count: nat): string {
    var width := |Decimal(Max(count, 1))|;
    "chunk-" + PadStart(Decimal(index + 1), width, '0') + "-of-" + Decimal(count)
  }

  /** The chunk a group becomes, before it is numbered. */
  function Provisional(transcript: string, group: seq<Unit>, bytes: nat): Chunk
    requires group != [] && group[0].start <= |transcript| && group[|group| - 1].end <= |transcript|
  {
    Chunk([], 0, 0, Units16(transcript[..group[0].start]), Units16(transcript[..group[|group| - 1].end]),
          Sources(group), Prompts(group), bytes, Segments(group))
  }

  ghost predicate ChunkOf(transcript: string, group: seq<Unit>, index: nat, count: nat, c: Chunk) {
    && group != [] && group[0].start <= |transcript| && group[|group| - 1].end <= |transcript|
    && c == Provisional(transcript, group, GroupBytes(group)).(id := IdOf(index, count), index := index, count := count)
  }

  ghost predicate Packing(
    transcript: string, units: seq<Unit>, maxBytes: int,
    groups: seq<seq<Unit>>, provisional: seq<Chunk>, current: seq<Unit>, currentBytes: nat)
  {
    && Flatten(groups) + current == units
    && currentBytes == GroupBytes(current)
    && (current != [] ==> currentBytes <= maxBytes)
    && Greedy(groups, maxBytes)
    && (groups != [] && current != [] ==> GroupBytes(groups[|groups| - 1]) + 1 + current[0].bytes > maxBytes)
    && Flushed(transcript, groups, provisional)
  }

  ghost predicate Greedy(groups: seq<seq<Unit>>, maxBytes: int) {
    && (forall k :: 0 <= k < |groups| ==> groups[k] != [] && GroupBytes(groups[k]) <= maxBytes)
    && (forall k :: 0 < k < |groups| ==> GroupBytes(groups[k - 1]) + 1 + groups[k][0].bytes > maxBytes)
  }

  ghost predicate Flushed(transcript: string, groups: seq<seq<Unit>>, provisional: seq<Chunk>) {
    && |provisional| == |groups|
    && forall k :: 0 <= k < |groups| ==> FlushedAs(transcript, groups[k], provisional[k])
  }

  ghost predicate FlushedAs(transcript: string, group: seq<Unit>, c: Chunk) {
    && group != [] && group[0].start <= |transcript| && group[|group| - 1].end <= |transcript|
    && c == Provisional(transcript, group, GroupBytes(group))
  }

  lemma FlattenOne(groups: seq<seq<Unit>>, group: seq<Unit>)
    ensures Flatten(groups + [group]) == Flatten(groups) + group
  {
    assert (groups + [group])[..|groups|] == groups;
  }

  lemma GreedyAppend(groups: seq<seq<Unit>>, group: seq<Unit>, maxBytes: int)
    requires Greedy(groups, maxBytes) && group != [] && GroupBytes(group) <= maxBytes
    requires groups != [] ==> GroupBytes(groups[|groups| - 1]) + 1 + group[0].bytes > maxBytes
    ensures Greedy(groups + [group], maxBytes)
  {
  }

  lemma FlushedAppend(transcript: string, groups: seq<seq<Unit>>, provisional: seq<Chunk>, group: seq<Unit>, c: Chunk)
    requires Flushed(transcript, groups, provisional)
    requires FlushedAs(transcript, group, c)
    ensures Flushed(transcript, groups + [group], provisional + [c])
  {
    forall k | 0 <= k < |groups| + 1 ensures FlushedAs(transcript, (groups + [group])[k], (provisional + [c])[k]) {
      if k < |groups| { assert FlushedAs(transcript, groups[k], provisional[k]); }
    }
  }

  /** `flush` of a nonempty current group. */
  method Flush(
    transcript: string, ghost units: seq<Unit>, ghost maxBytes: int, ghost groups: seq<seq<Unit>>,
    provisional: seq<Chunk>, current: seq<Unit>, currentBytes: nat) returns (longer: seq<Chunk>)
    requires Packing(transcript, units, maxBytes, groups, provisional, current, currentBytes)
    requires current != [] && current[0].start <= |transcript| && current[|current| - 1].end <= |transcript|
    ensures Packing(transcript, units, maxBytes, groups + [current], longer, [], 0)
  {
    FlattenOne(groups, current);
    GreedyAppend(groups, current, maxBytes);
    var chunk := Provisional(transcript, current, currentBytes);
    FlushedAppend(transcript, groups, provisional, current, chunk);
    longer := provisional + [chunk];
  }

  lemma PushUnit(
    transcript: string, units: seq<Unit>, maxBytes: int,
    groups: seq<seq<Unit>>, provisional: seq<Chunk>, current: seq<Unit>, currentBytes: nat, u: Unit)
    requires Packing(transcript, units, maxBytes, groups, provisional, current, currentBytes)
    requires current == [] ==>
      && u.bytes <= maxBytes
      && (groups != [] ==> GroupBytes(groups[|groups| - 1]) + 1 + u.bytes > maxBytes)
    requires current != [] ==> currentBytes + 1 + u.bytes <= maxBytes
    ensures Packing(transcript, units + [u], maxBytes, groups, provisional, current + [u],
                    currentBytes + (if current == [] then 0 else 1) + u.bytes)
  {
    assert (current + [u])[..|current|] == current;
    assert Flatten(groups) + (current + [u]) == Flatten(groups) + current + [u];
  }

  /** The loop body: flush when the unit does not fit, then add it. */
  method PackUnit(
    transcript: string, ghost units: seq<Unit>, maxBytes: int, ghost groups: seq<seq<Unit>>,
    provisional: seq<Chunk>, current: seq<Unit>, currentBytes: nat, u: Unit)
    returns (ghost groups': seq<seq<Unit>>, provisional': seq<Chunk>, current': seq<Unit>, currentBytes': nat)
    requires Packing(transcript, units, maxBytes, groups, provisional, current, currentBytes)
    requires u.bytes <= maxBytes && (groups != [] ==> current != [])
    requires current != [] ==> current[0].start <= |transcript| && current[|current| - 1].end <= |transcript|
    ensures Packing(transcript, units + [u], maxBytes, groups', provisional', current', currentBytes')
    ensures current' == [u] || current' == current + [u]
    ensures current'[|current'| - 1] == u && (current'[0] == u || (current != [] && current'[0] == current[0]))
  {
    groups', provisional', current', currentBytes' := groups, provisional, current, currentBytes;
    var separatorBytes := if |current| == 0 then 0 else 1;
    if |current| > 0 && currentBytes + separatorBytes + u.bytes > maxBytes {
      provisional' := Flush(transcript, units, maxBytes, groups, provisional, current, currentBytes);
      groups' := groups + [current];
      current', currentBytes' := [], 0;
    }
    PushUnit(transcript, units, maxBytes, groups', provisional', current', currentBytes', u);
    currentBytes' := currentBytes' + (if |current'| == 0 then 0 else 1) + u.bytes;
    current' := current' + [u];
  }

  method Pack(transcript: string, units: seq<Unit>, maxBytes: int)
    returns (provisional: seq<Chunk>, ghost groups: seq<seq<Unit>>)
    requires forall k :: 0 <= k < |units| ==> UnitOf(transcript, maxBytes, units[k])
    ensures Packed(units, groups, maxBytes) && Flushed(transcript, groups, provisional)
  {
    provisional, groups := [], [];
    var current: seq<Unit> := [];
    var currentBytes: nat := 0;
    assert Flatten(groups) + current == units[..0];
    for i := 0 to |units|
      invariant Packing(transcript, units[..i], maxBytes, groups, provisional, current, currentBytes)
      invariant current != [] ==> current[0].start <= |transcript| && current[|current| - 1].end <= |transcript|
      invariant groups != [] ==> current != []
    {
      UnitFacts(transcript, maxBytes, units, i);
      ghost var before := units[..i];
      TakeOneMore(units, i);
      groups, provisional, current, currentBytes :=
        PackUnit(transcript, before, maxBytes, groups, provisional, current, currentBytes, units[i]);
    }
    assert units[..|units|] == units;
    if |current| > 0 {
      provisional := Flush(transcript, units, maxBytes, groups, provisional, current, currentBytes);
      groups := groups + [current];
    } else {
      assert Flatten(groups) + [] == Flatten(groups);
    }
    assert Flatten(groups) == units;
  }

  lemma TakeOneMore<T>(s: seq<T>, i: nat)
    requires i < |s|
    ensures s[..i + 1] == s[..i] + [s[i]]
  {
  }

  lemma UnitFacts(transcript: string, maxBytes: int, units: seq<Unit>, i: nat)
    requires i < |units| && forall k :: 0 <= k < |units| ==> UnitOf(transcript, maxBytes, units[k])
    ensures units[i].bytes <= maxBytes && units[i].start <= units[i].end <= |transcript|
  {
    assert UnitOf(transcript, maxBytes, units[i]);
  }

  // ----------------------------------------------------------------------- plans

  /** Chunks, and the pieces, units and groups they were made from. */
  ghost predicate PlanOf(
    transcript: string, segments: seq<string>, maxBytes: int,
    pieces: seq<Piece>, units: seq<Unit>, groups: seq<seq<Unit>>, chunks: seq<Chunk>)
  {
    && PiecesOf(transcript, segments, pieces) && UnitsOf(transcript, pieces, maxBytes, units)
    && Packed(units, groups, maxBytes) && ChunksOf(transcript, groups, chunks)
  }

  method PlanSummaryChunks(transcript: string, segments: seq<string>, maxBytes: int)
    returns (r: Result<seq<Chunk>, PlanError>,
             ghost pieces: seq<Piece>, ghost units: seq<Unit>, ghost groups: seq<seq<Unit>>)
    ensures maxBytes < 64 ==> r == Err(BudgetTooSmall)
    ensures maxBytes >= 64 ==>
      && PiecesOf(transcript, segments, pieces)
      && (r.Err? <==> exists k :: 0 <= k < |pieces| && LabelTooLong(pieces[k], maxBytes))
    ensures r.Ok? ==> PlanOf(transcript, segments, maxBytes, pieces, units, groups, r.value)
  {
    pieces, units, groups := [], [], [];
    if maxBytes < 64 { return Err(BudgetTooSmall), pieces, units, groups; }
    var cut: Result<seq<Unit>, PlanError>;
    cut, pieces := PromptUnits(transcript, segments, maxBytes);
    if cut.Err? { return Err(LabelDoesNotFit), pieces, units, groups; }
    units := cut.value;
    var provisional: seq<Chunk>;
    provisional, groups := Pack(transcript, cut.value, maxBytes);
    var chunks := Number(provisional);
    forall k | 0 <= k < |groups| ensures ChunkOf(transcript, groups[k], k, |groups|, chunks[k]) {
      assert FlushedAs(transcript, groups[k], provisional[k]);
    }
    r := Ok(chunks);
  }

  function Number(provisional: seq<Chunk>): (r: seq<Chunk>)
    ensures |r| == |provisional|
    ensures forall k :: 0 <= k < |r| ==>
      r[k] == provisional[k].(id := IdOf(k, |provisional|), index := k, count := |provisional|)
  {
    seq(|provisional|, k requires 0 <= k < |provisional| =>
      provisional[k].(id := IdOf(k, |provisional|), index := k, count := |provisional|))
  }

  /** Groups cut a run of consecutive units into consecutive runs. */
  ghost predicate GroupMeets(groups: seq<seq<Unit>>, k: nat)
    requires 0 < k < |groups|
  {
    groups[k] != [] && groups[k - 1] != [] && groups[k][0].start == LastEnd(groups[k - 1])
  }

  ghost predicate GroupsTile(transcript: string, groups: seq<seq<Unit>>, from: nat, to: nat) {
    && (groups == [] ==> from == to)
    && (forall k :: 0 <= k < |groups| ==> groups[k] != [] && Slices(transcript, groups[k]))
    && (groups != [] ==> groups[0][0].start == from && LastEnd(groups[|groups| - 1]) == to)
    && (forall k :: 0 < k < |groups| ==> GroupMeets(groups, k))
  }

  function LastEnd(group: seq<Unit>): nat
    requires group != []
  {
    group[|group| - 1].end
  }

  lemma SplitRun(transcript: string, before: seq<Unit>, last: seq<Unit>, to: nat)
    requires last != [] && UnitsTile(before + last, to) && Slices(transcript, before + last)
    ensures UnitsTile(before, last[0].start) && Slices(transcript, before)
    ensures Slices(transcript, last) && LastEnd(last) == to
  {
    var all := before + last;
    LinkedSplit(before, last);
    forall k | 0 <= k < |last|
      ensures last[k].start <= last[k].end <= |transcript| && last[k].source == transcript[last[k].start..last[k].end]
    {
      assert all[|before| + k] == last[k];
    }
    forall k | 0 <= k < |before|
      ensures before[k].start <= before[k].end <= |transcript|
        && before[k].source == transcript[before[k].start..before[k].end]
    {
      assert all[k] == before[k];
    }
  }

  lemma {:induction false} GroupsAreConsecutive(transcript: string, groups: seq<seq<Unit>>, to: nat)
    requires forall k :: 0 <= k < |groups| ==> groups[k] != []
    requires UnitsTile(Flatten(groups), to) && Slices(transcript, Flatten(groups))
    ensures GroupsTile(transcript, groups, 0, to)
  {
    if groups != [] {
      var front, last := groups[..|groups| - 1], groups[|groups| - 1];
      SplitRun(transcript, Flatten(front), last, to);
      GroupsAreConsecutive(transcript, front, last[0].start);
      GroupsTileAppend(transcript, front, last);
      assert groups == front + [last];
    }
  }

  lemma GroupsTileAppend(transcript: string, front: seq<seq<Unit>>, last: seq<Unit>)
    requires last != [] && GroupsTile(transcript, front, 0, last[0].start) && Slices(transcript, last)
    ensures GroupsTile(transcript, front + [last], 0, LastEnd(last))
  {
    forall k | 0 < k < |front + [last]| ensures GroupMeets(front + [last], k) {
      if k < |front| { assert GroupMeets(front, k); }
    }
  }

  lemma GroupsTileFront(transcript: string, front: seq<seq<Unit>>, last: seq<Unit>, to: nat)
    requires GroupsTile(transcript, front + [last], 0, to)
    ensures last != [] && GroupsTile(transcript, front, 0, last[0].start)
  {
    var all := front + [last];
    assert all[|front|] == last;
    forall k | 0 <= k < |front| ensures front[k] != [] && Slices(transcript, front[k]) { assert all[k] == front[k]; }
    forall k | 0 < k < |front| ensures GroupMeets(front, k) { assert GroupMeets(all, k); }
    if front != [] { assert GroupMeets(all, |front|); }
  }

  /** Chunk `k` starts where the one before it ends. */
  ghost predicate Continues(chunks: seq<Chunk>, k: nat)
    requires 0 < k < |chunks|
  {
    chunks[k].sourceStart == chunks[k - 1].sourceEnd
  }

  function SourceTexts(chunks: seq<Chunk>): string {
    if chunks == [] then [] else SourceTexts(chunks[..|chunks| - 1]) + chunks[|chunks| - 1].sourceText
  }

  lemma {:induction false} SourceTextsTrue(transcript: string, groups: seq<seq<Unit>>, chunks: seq<Chunk>, to: nat)
    requires GroupsTile(transcript, groups, 0, to) && |chunks| == |groups| && to <= |transcript|
    requires forall k :: 0 <= k < |groups| ==> chunks[k].sourceText == Sources(groups[k])
    ensures SourceTexts(chunks) == transcript[..to]
  {
    if groups != [] {
      var front, last := groups[..|groups| - 1], groups[|groups| - 1];
      assert groups == front + [last];
      GroupsTileFront(transcript, front, last, to);
      SourceTextsTrue(transcript, front, chunks[..|chunks| - 1], last[0].start);
      LastGroupText(transcript, last, to);
    }
  }

  lemma LastGroupText(transcript: string, last: seq<Unit>, to: nat)
    requires last != [] && Slices(transcript, last) && LastEnd(last) == to
    ensures last[0].start <= to <= |transcript|
    ensures transcript[..last[0].start] + Sources(last) == transcript[..to]
  {
    SourcesTrue(transcript, last);
    assert transcript[..last[0].start] + transcript[last[0].start..to] == transcript[..to];
  }

  /** The plan covers the transcript exactly once, within the budget. */
  lemma PlanCoversOnce(
    transcript: string, segments: seq<string>, maxBytes: int,
    pieces: seq<Piece>, units: seq<Unit>, groups: seq<seq<Unit>>, chunks: seq<Chunk>)
    requires PlanOf(transcript, segments, maxBytes, pieces, units, groups, chunks)
    ensures SourceTexts(chunks) == transcript
    ensures chunks != [] && chunks[0].sourceStart == 0 && chunks[|chunks| - 1].sourceEnd == Units16(transcript)
    ensures forall k :: 0 < k < |chunks| ==> Continues(chunks, k)
    ensures forall k :: 0 <= k < |chunks| ==>
      && chunks[k].sourceEnd == chunks[k].sourceStart + Units16(chunks[k].sourceText)
      && chunks[k].promptUtf8Bytes == Bytes(chunks[k].promptText) <= maxBytes
      && chunks[k].index == k && chunks[k].count == |chunks|
  {
    assert Slices(transcript, units);
    GroupsAreConsecutive(transcript, groups, |transcript|);
    assert Flatten([]) == [];
    PlanText(transcript, groups, chunks);
    PlanBoundaries(transcript, groups, chunks);
    forall k | 0 <= k < |chunks|
      ensures
        && chunks[k].sourceEnd == chunks[k].sourceStart + Units16(chunks[k].sourceText)
        && chunks[k].promptUtf8Bytes == Bytes(chunks[k].promptText) <= maxBytes
        && chunks[k].index == k && chunks[k].count == |chunks|
    {
      ChunkTrue(transcript, maxBytes, units, groups, k, chunks[k]);
    }
  }

  ghost predicate ChunksOf(transcript: string, groups: seq<seq<Unit>>, chunks: seq<Chunk>) {
    && |chunks| == |groups|
    && forall k :: 0 <= k < |groups| ==> ChunkOf(transcript, groups[k], k, |groups|, chunks[k])
  }

  lemma PlanText(transcript: string, groups: seq<seq<Unit>>, chunks: seq<Chunk>)
    requires ChunksOf(transcript, groups, chunks) && GroupsTile(transcript, groups, 0, |transcript|)
    ensures SourceTexts(chunks) == transcript
  {
    forall k | 0 <= k < |groups| ensures chunks[k].sourceText == Sources(groups[k]) {
      assert ChunkOf(transcript, groups[k], k, |groups|, chunks[k]);
    }
    SourceTextsTrue(transcript, groups, chunks, |transcript|);
    assert transcript[..|transcript|] == transcript;
  }

  lemma PlanBoundaries(transcript: string, groups: seq<seq<Unit>>, chunks: seq<Chunk>)
    requires ChunksOf(transcript, groups, chunks) && GroupsTile(transcript, groups, 0, |transcript|) && groups != []
    ensures chunks[0].sourceStart == 0 && chunks[|chunks| - 1].sourceEnd == Units16(transcript)
    ensures forall k :: 0 < k < |chunks| ==> Continues(chunks, k)
  {
    PlanEnds(transcript, groups, chunks);
    forall k | 0 < k < |chunks| ensures Continues(chunks, k) {
      Neighbours(transcript, groups, chunks, k);
    }
  }

  lemma PlanEnds(transcript: string, groups: seq<seq<Unit>>, chunks: seq<Chunk>)
    requires ChunksOf(transcript, groups, chunks) && GroupsTile(transcript, groups, 0, |transcript|) && groups != []
    ensures chunks[0].sourceStart == 0 && chunks[|chunks| - 1].sourceEnd == Units16(transcript)
  {
    StartsAtZero(transcript, groups, chunks);
    EndsAtEnd(transcript, groups, chunks);
  }

  lemma StartsAtZero(transcript: string, groups: seq<seq<Unit>>, chunks: seq<Chunk>)
    requires ChunksOf(transcript, groups, chunks) && groups != [] && groups[0] != [] && groups[0][0].start == 0
    ensures chunks[0].sourceStart == 0
  {
    ChunkRange(transcript, groups, chunks, 0);
    assert transcript[..0] == [];
  }

  lemma EndsAtEnd(transcript: string, groups: seq<seq<Unit>>, chunks: seq<Chunk>)
    requires ChunksOf(transcript, groups, chunks) && groups != [] && groups[|groups| - 1] != []
    requires LastEnd(groups[|groups| - 1]) == |transcript|
    ensures chunks[|chunks| - 1].sourceEnd == Units16(transcript)
  {
    ChunkRange(transcript, groups, chunks, |groups| - 1);
    assert transcript[..|transcript|] == transcript;
  }

  lemma Neighbours(transcript: string, groups: seq<seq<Unit>>, chunks: seq<Chunk>, k: nat)
    requires ChunksOf(transcript, groups, chunks) && GroupsTile(transcript, groups, 0, |transcript|) && 0 < k < |chunks|
    ensures Continues(chunks, k)
  {
    ChunkRange(transcript, groups, chunks, k);
    ChunkRange(transcript, groups, chunks, k - 1);
    assert GroupMeets(groups, k);
  }

  lemma ChunkRange(transcript: string, groups: seq<seq<Unit>>, chunks: seq<Chunk>, k: nat)
    requires ChunksOf(transcript, groups, chunks) && k < |groups|
    ensures groups[k] != [] && groups[k][0].start <= |transcript| && LastEnd(groups[k]) <= |transcript|
    ensures chunks[k].sourceStart == Units16(transcript[..groups[k][0].start])
    ensures chunks[k].sourceEnd == Units16(transcript[..LastEnd(groups[k])])
  {
    assert ChunkOf(transcript, groups[k], k, |groups|, chunks[k]);
  }

  lemma ChunkTrue(
    transcript: string, maxBytes: int, units: seq<Unit>, groups: seq<seq<Unit>>, k: nat, c: Chunk)
    requires Packed(units, groups, maxBytes) && k < |groups| && Slices(transcript, groups[k])
    requires forall i :: 0 <= i < |units| ==> UnitOf(transcript, maxBytes, units[i])
    requires ChunkOf(transcript, groups[k], k, |groups|, c)
    ensures c.sourceEnd == c.sourceStart + Units16(c.sourceText)
    ensures c.promptUtf8Bytes == Bytes(c.promptText) <= maxBytes
  {
    InFlatten(groups, k);
    forall i | 0 <= i < |groups[k]| ensures UnitOf(transcript, maxBytes, groups[k][i]) {
      assert groups[k][i] in units;
    }
    PromptBytesTrue(transcript, maxBytes, groups[k]);
    RangeTrue(transcript, groups[k]);
  }

  lemma RangeTrue(transcript: string, group: seq<Unit>)
    requires group != [] && Slices(transcript, group)
    ensures group[0].start <= |transcript| && LastEnd(group) <= |transcript|
    ensures Units16(transcript[..LastEnd(group)]) == Units16(transcript[..group[0].start]) + Units16(Sources(group))
  {
    SourcesTrue(transcript, group);
    var a, b := group[0].start, LastEnd(group);
    assert transcript[..b] == transcript[..a] + transcript[a..b];
    SizesAppend(transcript[..a], transcript[a..b]);
  }

  lemma {:induction false} InFlatten(groups: seq<seq<Unit>>, k: nat)
    requires k < |groups|
    ensures forall u :: u in groups[k] ==> u in Flatten(groups)
  {
    if k < |groups| - 1 { InFlatten(groups[..|groups| - 1], k); }
  }

  /** A label in a chunk's prompt names a segment the labelled text is part of, and
      `segmentIndexes` lists exactly the labels used, once each. */
  lemma LabelsAreTrue(
    transcript: string, segments: seq<string>, maxBytes: int,
    pieces: seq<Piece>, units: seq<Unit>, groups: seq<seq<Unit>>, chunks: seq<Chunk>, k: nat, u: Unit)
    requires PlanOf(transcript, segments, maxBytes, pieces, units, groups, chunks)
    requires k < |chunks| && u in groups[k]
    ensures u.prompt == Label(u.segment) + u.source
    ensures u.segment.Some? ==>
      && u.segment.value < |segments| && u.segment.value in chunks[k].segmentIndexes
      && Includes(segments[u.segment.value], u.source)
  {
    InFlatten(groups, k);
    assert u in units;
    assert ChunkOf(transcript, groups[k], k, |groups|, chunks[k]);
    var j :| 0 <= j < |units| && units[j] == u;
    assert UnitOf(transcript, maxBytes, units[j]) && Within(units[j], pieces);
    if u.segment.Some? {
      LabelIsTrue(transcript, segments, maxBytes, pieces, u);
    }
  }

  lemma LabelIsTrue(transcript: string, segments: seq<string>, maxBytes: int, pieces: seq<Piece>, u: Unit)
    requires AllLabelled(transcript, segments, pieces) && UnitOf(transcript, maxBytes, u) && Within(u, pieces)
    requires u.segment.Some?
    ensures u.segment.value < |segments| && Includes(segments[u.segment.value], u.source)
  {
    var p :|
      0 <= p < |pieces| && pieces[p].start <= u.start && u.end <= pieces[p].end && pieces[p].segment == u.segment;
    assert Labelled(transcript, segments, pieces[p], SearchStart(pieces, p));
    LabelOfPiece(transcript, segments, maxBytes, pieces[p], SearchStart(pieces, p), u);
  }

  lemma LabelOfPiece(transcript: string, segments: seq<string>, maxBytes: int, piece: Piece, from: nat, u: Unit)
    requires Labelled(transcript, segments, piece, from) && UnitOf(transcript, maxBytes, u)
    requires piece.start <= u.start && u.end <= piece.end && piece.segment == u.segment && u.segment.Some?
    ensures u.segment.value < |segments| && Includes(segments[u.segment.value], u.source)
  {
    SliceOfSlice(transcript, piece.start, u.start, u.end, piece.end);
  }

  lemma SliceOfSlice(text: string, a: nat, b: nat, c: nat, d: nat)
    requires a <= b <= c <= d <= |text|
    ensures Includes(text[a..d], text[b..c])
  {
    var part, from := text[a..d], b - a;
    forall i | 0 <= i < c - b ensures part[from..c - a][i] == text[b..c][i] {
      assert part[from + i] == text[b + i];
    }
    assert part[from..from + |text[b..c]|] == text[b..c];
    assert OccursAt(part, text[b..c], from);
  }

  /** Never more chunks than characters, apart from the one chunk of an empty transcript. */
  lemma PlanIsShort(
    transcript: string, segments: seq<string>, maxBytes: int,
    pieces: seq<Piece>, units: seq<Unit>, groups: seq<seq<Unit>>, chunks: seq<Chunk>)
    requires PlanOf(transcript, segments, maxBytes, pieces, units, groups, chunks)
    ensures 1 <= |chunks| <= Max(1, |transcript|)
  {
    FlattenLength(groups);
    if transcript != [] { UnitsAreFew(units, |transcript|); }
    assert Flatten([]) == [];
  }

  lemma {:induction false} FlattenLength(groups: seq<seq<Unit>>)
    requires forall k :: 0 <= k < |groups| ==> groups[k] != []
    ensures |groups| <= |Flatten(groups)|
  {
    if groups != [] { FlattenLength(groups[..|groups| - 1]); }
  }

  lemma {:induction false} UnitsAreFew(units: seq<Unit>, upTo: nat)
    requires UnitsTile(units, upTo) && forall k :: 0 <= k < |units| ==> units[k].start < units[k].end
    ensures |units| <= upTo
  {
    if |units| > 1 {
      var front, last := units[..|units| - 1], units[|units| - 1];
      assert units == front + [last];
      LinkedSplit(front, [last]);
      UnitsAreFew(front, last.start);
    }
  }
}

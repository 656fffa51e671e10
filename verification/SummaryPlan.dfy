/** Splitting a transcript into prompt chunks (src/llm/summary-plan.ts): the chunks
    cover the transcript exactly once, carry true byte counts within the budget, and
    label every stretch with the segment it really comes from. */
module SummaryPlan {

  import opened Common
  import opened Text

  // --------------------------------------------------------------------- pieces

  /** Characters `start..end` of the transcript, from a known segment or not. */
  datatype Piece = Piece(start: nat, end: nat, segment: Option<nat>)

  /** Piece `k` starts where the one before it ends. */
  ghost predicate Abuts(pieces: seq<Piece>, k: nat)
    requires 0 < k < |pieces|
  {
    pieces[k].start == pieces[k - 1].end
  }

  ghost predicate Tiles(pieces: seq<Piece>, upTo: nat) {
    && (pieces == [] ==> upTo == 0)
    && (pieces != [] ==> pieces[0].start == 0 && pieces[|pieces| - 1].end == upTo)
    && (forall k :: 0 <= k < |pieces| ==> pieces[k].start <= pieces[k].end)
    && (forall k :: 0 < k < |pieces| ==> Abuts(pieces, k))
  }

  /** A labelled piece is its segment, found at the first place after the previous one. */
  ghost predicate Labelled(transcript: string, segments: seq<string>, piece: Piece, from: nat) {
    piece.segment.Some? ==>
      && piece.segment.value < |segments| && segments[piece.segment.value] != []
      && piece.end == piece.start + |segments[piece.segment.value]| <= |transcript|
      && OccursAt(transcript, segments[piece.segment.value], piece.start)
      && forall at :: from <= at < piece.start ==> !OccursAt(transcript, segments[piece.segment.value], at)
  }

  /** Where the search for piece `k` began: after the last labelled piece. */
  function SearchStart(pieces: seq<Piece>, k: nat): nat
    requires k < |pieces|
  {
    if k > 0 && pieces[k - 1].segment.None? then pieces[k - 1].start else pieces[k].start
  }

  ghost predicate PiecesOf(transcript: string, segments: seq<string>, pieces: seq<Piece>) {
    && pieces != [] && Tiles(pieces, |transcript|)
    && (if transcript == [] then pieces == [Piece(0, 0, None)] else Alternating(pieces))
    && AllLabelled(transcript, segments, pieces) && Increasing(pieces, |segments|)
    && NoneMissed(transcript, segments, pieces, |segments|)
  }

  /** End of the last piece labelled with a segment before `i`. */
  function EndBefore(pieces: seq<Piece>, i: nat): nat {
    if pieces == [] then 0
    else
      var last := pieces[|pieces| - 1];
      if last.segment.Some? && last.segment.value < i then last.end else EndBefore(pieces[..|pieces| - 1], i)
  }

  ghost predicate AbsentFrom(text: string, part: string, from: nat) {
    forall at :: from <= at ==> !OccursAt(text, part, at)
  }

  ghost predicate Located(pieces: seq<Piece>, i: nat) {
    exists k :: 0 <= k < |pieces| && pieces[k].segment == Some(i)
  }

  /** A segment has no piece only if it is empty or does not occur any more. */
  ghost predicate NoneMissed(transcript: string, segments: seq<string>, pieces: seq<Piece>, limit: nat) {
    forall i :: 0 <= i < limit && i < |segments| ==>
      segments[i] == [] || Located(pieces, i) || AbsentFrom(transcript, segments[i], EndBefore(pieces, i))
  }

  lemma AppendMissesNone(transcript: string, segments: seq<string>, pieces: seq<Piece>, piece: Piece, limit: nat)
    requires NoneMissed(transcript, segments, pieces, limit)
    requires piece.segment.Some? ==> limit <= piece.segment.value
    ensures NoneMissed(transcript, segments, pieces + [piece], limit)
    ensures forall i: nat :: i <= limit ==> EndBefore(pieces + [piece], i) == EndBefore(pieces, i)
    ensures piece.segment.Some? ==>
      Located(pieces + [piece], piece.segment.value)
      && forall i: nat :: i > piece.segment.value ==> EndBefore(pieces + [piece], i) == piece.end
  {
    var r := pieces + [piece];
    assert r[..|pieces|] == pieces;
    assert r[|pieces|] == piece;
    forall i | 0 <= i < limit && Located(pieces, i) ensures Located(r, i) {
      var k :| 0 <= k < |pieces| && pieces[k].segment == Some(i);
      assert r[k].segment == Some(i);
    }
  }

  /** `indexOf`: the first occurrence at or after `from`. */
  method IndexOf(text: string, part: string, from: nat) returns (at: Option<nat>)
    requires from <= |text|
    ensures at.Some? ==>
      && from <= at.value && OccursAt(text, part, at.value)
      && forall k :: from <= k < at.value ==> !OccursAt(text, part, k)
    ensures at.None? ==> forall k :: from <= k ==> !OccursAt(text, part, k)
  {
    var k := from;
    while k + |part| <= |text|
      invariant from <= k
      invariant forall j :: from <= j < k ==> !OccursAt(text, part, j)
    {
      if text[k..k + |part|] == part { return Some(k); }
      k := k + 1;
    }
    at := None;
  }

  ghost predicate Increasing(pieces: seq<Piece>, limit: nat) {
    && (forall j, k :: 0 <= j < k < |pieces| && pieces[j].segment.Some? && pieces[k].segment.Some? ==>
          pieces[j].segment.value < pieces[k].segment.value)
    && (forall k :: 0 <= k < |pieces| && pieces[k].segment.Some? ==> pieces[k].segment.value < limit)
  }

  ghost predicate AllLabelled(transcript: string, segments: seq<string>, pieces: seq<Piece>) {
    forall k :: 0 <= k < |pieces| ==> Labelled(transcript, segments, pieces[k], SearchStart(pieces, k))
  }

  /** Nonempty pieces; between two labelled ones at most one gap. */
  ghost predicate Alternating(pieces: seq<Piece>) {
    && (forall k :: 0 <= k < |pieces| ==> pieces[k].start < pieces[k].end)
    && (forall k :: 0 < k < |pieces| && pieces[k].segment.None? ==> pieces[k - 1].segment.Some?)
  }

  function NextSearch(pieces: seq<Piece>, cursor: nat): nat {
    if pieces != [] && pieces[|pieces| - 1].segment.None? then pieces[|pieces| - 1].start else cursor
  }

  lemma AppendLabelled(transcript: string, segments: seq<string>, pieces: seq<Piece>, piece: Piece)
    requires AllLabelled(transcript, segments, pieces)
    requires Labelled(transcript, segments, piece, NextSearch(pieces, piece.start))
    ensures AllLabelled(transcript, segments, pieces + [piece])
  {
    var r := pieces + [piece];
    forall k | 0 <= k < |r| ensures Labelled(transcript, segments, r[k], SearchStart(r, k)) {
      if k < |pieces| {
        assert Labelled(transcript, segments, pieces[k], SearchStart(pieces, k));
        assert r[k] == pieces[k] && SearchStart(r, k) == SearchStart(pieces, k);
      }
    }
  }

  lemma AppendShape(pieces: seq<Piece>, piece: Piece, limit: nat)
    requires Tiles(pieces, piece.start) && Alternating(pieces) && Increasing(pieces, limit)
    requires piece.start < piece.end
    requires piece.segment.None? && pieces != [] ==> pieces[|pieces| - 1].segment.Some?
    requires piece.segment.Some? ==> limit <= piece.segment.value
    ensures Tiles(pieces + [piece], piece.end) && Alternating(pieces + [piece])
    ensures Increasing(pieces + [piece], if piece.segment.Some? then piece.segment.value + 1 else limit)
  {
    forall k | 0 < k < |pieces + [piece]| ensures Abuts(pieces + [piece], k) {
      if k < |pieces| { assert Abuts(pieces, k); }
    }
  }

  ghost predicate PiecesSoFar(transcript: string, segments: seq<string>, pieces: seq<Piece>, cursor: nat, limit: nat) {
    && cursor <= |transcript| && Tiles(pieces, cursor) && Alternating(pieces) && Increasing(pieces, limit)
    && AllLabelled(transcript, segments, pieces)
    && (pieces != [] ==> pieces[|pieces| - 1].segment.Some?)
    && NoneMissed(transcript, segments, pieces, limit) && EndBefore(pieces, limit) == cursor
  }

  method SourcePieces(transcript: string, segments: seq<string>) returns (pieces: seq<Piece>)
    ensures PiecesOf(transcript, segments, pieces)
  {
    pieces := [];
    var cursor: nat := 0;
    for i := 0 to |segments|
      invariant PiecesSoFar(transcript, segments, pieces, cursor, i)
    {
      pieces, cursor := LocateSegment(transcript, segments, pieces, cursor, i);
    }
    if cursor < |transcript| {
      AppendMissesNone(transcript, segments, pieces, Piece(cursor, |transcript|, None), |segments|);
      pieces := AddPiece(transcript, segments, pieces, Piece(cursor, |transcript|, None), |segments|);
    }
    if |pieces| == 0 {
      AppendMissesNone(transcript, segments, [], Piece(0, |transcript|, None), |segments|);
      pieces := [Piece(0, |transcript|, None)];
      assert pieces == [] + [Piece(0, |transcript|, None)];
    }
  }

  /** The loop body: an empty or absent segment is skipped. */
  method LocateSegment(transcript: string, segments: seq<string>, found: seq<Piece>, from: nat, i: nat)
    returns (pieces: seq<Piece>, cursor: nat)
    requires PiecesSoFar(transcript, segments, found, from, i) && i < |segments|
    ensures PiecesSoFar(transcript, segments, pieces, cursor, i + 1)
  {
    pieces, cursor := found, from;
    if |segments[i]| == 0 {
      SkipMissesNone(transcript, segments, found, i);
      return;
    }
    var start := IndexOf(transcript, segments[i], cursor);
    if start.None? {
      SkipMissesNone(transcript, segments, found, i);
      return;
    }
    pieces, cursor := AddLocated(transcript, segments, found, from, i, start.value);
  }

  lemma SkipMissesNone(transcript: string, segments: seq<string>, pieces: seq<Piece>, i: nat)
    requires i < |segments| && NoneMissed(transcript, segments, pieces, i) && Increasing(pieces, i)
    requires segments[i] == [] || AbsentFrom(transcript, segments[i], EndBefore(pieces, i))
    ensures NoneMissed(transcript, segments, pieces, i + 1) && EndBefore(pieces, i + 1) == EndBefore(pieces, i)
  {
    SameEnd(pieces, i);
  }

  lemma {:induction false} SameEnd(pieces: seq<Piece>, i: nat)
    requires Increasing(pieces, i)
    ensures EndBefore(pieces, i + 1) == EndBefore(pieces, i)
  {
    if pieces != [] { SameEnd(pieces[..|pieces| - 1], i); }
  }

  method AddLocated(transcript: string, segments: seq<string>, found: seq<Piece>, from: nat, i: nat, start: nat)
    returns (pieces: seq<Piece>, cursor: nat)
    requires PiecesSoFar(transcript, segments, found, from, i) && i < |segments| && segments[i] != []
    requires from <= start && OccursAt(transcript, segments[i], start)
    requires forall at :: from <= at < start ==> !OccursAt(transcript, segments[i], at)
    ensures PiecesSoFar(transcript, segments, pieces, cursor, i + 1)
  {
    pieces := AddGap(transcript, segments, found, from, i, start);
    cursor := start + |segments[i]|;
    AppendMissesNone(transcript, segments, pieces, Piece(start, cursor, Some(i)), i);
    pieces := AddPiece(transcript, segments, pieces, Piece(start, cursor, Some(i)), i);
    MoreMissed(transcript, segments, pieces, i);
  }

  lemma MoreMissed(transcript: string, segments: seq<string>, pieces: seq<Piece>, i: nat)
    requires NoneMissed(transcript, segments, pieces, i) && Located(pieces, i)
    ensures NoneMissed(transcript, segments, pieces, i + 1)
  {
  }

  /** Text skipped over before the segment becomes an unlabelled piece. */
  method AddGap(transcript: string, segments: seq<string>, found: seq<Piece>, from: nat, i: nat, start: nat)
    returns (pieces: seq<Piece>)
    requires PiecesSoFar(transcript, segments, found, from, i) && from <= start <= |transcript|
    ensures Tiles(pieces, start) && Alternating(pieces) && Increasing(pieces, i)
    ensures AllLabelled(transcript, segments, pieces) && NoneMissed(transcript, segments, pieces, i)
    ensures NextSearch(pieces, start) == from
  {
    pieces := found;
    if start > from {
      AppendMissesNone(transcript, segments, pieces, Piece(from, start, None), i);
      pieces := AddPiece(transcript, segments, pieces, Piece(from, start, None), i);
    }
  }

  function AddPiece(transcript: string, segments: seq<string>, pieces: seq<Piece>, piece: Piece, limit: nat)
    : (r: seq<Piece>)
    requires Tiles(pieces, piece.start) && Alternating(pieces) && Increasing(pieces, limit)
    requires AllLabelled(transcript, segments, pieces) && piece.start < piece.end
    requires piece.segment.None? && pieces != [] ==> pieces[|pieces| - 1].segment.Some?
    requires piece.segment.Some? ==> limit <= piece.segment.value
    requires Labelled(transcript, segments, piece, NextSearch(pieces, piece.start))
    ensures r == pieces + [piece]
    ensures Tiles(r, piece.end) && Alternating(r) && AllLabelled(transcript, segments, r)
    ensures Increasing(r, if piece.segment.Some? then piece.segment.value + 1 else limit)
  {
    AppendShape(pieces, piece, limit);
    AppendLabelled(transcript, segments, pieces, piece);
    pieces + [piece]
  }

  // ----------------------------------------------------------------- bounded cuts

  /** JavaScript's `\s`. */
  predicate IsSpace(c: char) {
    var n := c as int;
    || 9 <= n <= 13 || n == 0x20 || n == 0xA0 || n == 0x1680 || 0x2000 <= n <= 0x200A
    || n == 0x2028 || n == 0x2029 || n == 0x202F || n == 0x205F || n == 0x3000 || n == 0xFEFF
  }

  /** The longest cut that fits, moved back to a space in its last two fifths. */
  method BoundedEnd(text: string, start: nat, limit: nat, maxBytes: int) returns (end: nat)
    requires start <= limit <= |text|
    ensures start <= end <= limit
    ensures Bytes(text[start..end]) <= Max(0, maxBytes)
    ensures start < limit && maxBytes >= 4 ==> start < end
    ensures end < limit ==>
      || Bytes(text[start..end + 1]) > maxBytes
      || (start < end && IsSpace(text[end - 1]) && 5 * Bytes(text[start..end]) >= 3 * maxBytes)
  {
    var cursor, bytes, boundary := start, 0, -1;
    while cursor < limit
      invariant start <= cursor <= limit
      invariant bytes == Bytes(text[start..cursor]) && bytes <= Max(0, maxBytes)
      invariant boundary == -1 || start < boundary <= cursor
      invariant boundary != -1 ==>
        && IsSpace(text[boundary - 1])
        && Bytes(text[start..boundary]) <= Max(0, maxBytes) && 5 * Bytes(text[start..boundary]) >= 3 * maxBytes
      invariant start < limit && maxBytes >= 4 && cursor == start ==> bytes == 0
    {
      var nextBytes := Utf8Width(text[cursor]);
      assert text[start..cursor + 1][..cursor - start] == text[start..cursor];
      if bytes + nextBytes > maxBytes { break; }
      bytes := bytes + nextBytes;
      cursor := cursor + 1;
      if IsSpace(text[cursor - 1]) && 5 * bytes >= 3 * maxBytes { boundary := cursor; }
    }
    if cursor == limit { return cursor; }
    if boundary > start { return boundary; }
    return cursor;
  }

  // ---------------------------------------------------------------------- units

  datatype Unit = Unit(start: nat, end: nat, segment: Option<nat>, source: string, prompt: string, bytes: nat)

  function Label(segment: Option<nat>): string {
    if segment.None? then "[unsegmented]\n" else "[segment " + Decimal(segment.value) + "]\n"
  }

  ghost predicate UnitOf(transcript: string, maxBytes: int, u: Unit) {
    && u.start <= u.end <= |transcript|
    && u.source == transcript[u.start..u.end]
    && u.prompt == Label(u.segment) + u.source
    && u.bytes == Bytes(u.prompt) && u.bytes <= maxBytes
  }

  /** The unit lies inside a piece and carries its label. */
  ghost predicate Within(u: Unit, pieces: seq<Piece>) {
    exists k ::
      0 <= k < |pieces| && pieces[k].start <= u.start && u.end <= pieces[k].end && pieces[k].segment == u.segment
  }

  /** Unit `k` starts where the one before it ends. */
  ghost predicate Meets(units: seq<Unit>, k: nat)
    requires 0 < k < |units|
  {
    units[k].start == units[k - 1].end
  }

  ghost predicate Linked(units: seq<Unit>) { forall k :: 0 < k < |units| ==> Meets(units, k) }

  lemma LinkedJoin(a: seq<Unit>, b: seq<Unit>)
    requires Linked(a) && Linked(b) && (a != [] && b != [] ==> b[0].start == a[|a| - 1].end)
    ensures Linked(a + b)
  {
    forall k | 0 < k < |a + b| ensures Meets(a + b, k) {
      if k < |a| {
        assert Meets(a, k);
      } else if k > |a| {
        assert Meets(b, k - |a|);
      }
    }
  }

  lemma LinkedSplit(a: seq<Unit>, b: seq<Unit>)
    requires Linked(a + b)
    ensures Linked(a) && Linked(b) && (a != [] && b != [] ==> b[0].start == a[|a| - 1].end)
  {
    forall k | 0 < k < |a| ensures Meets(a, k) { assert Meets(a + b, k); }
    forall k | 0 < k < |b| ensures Meets(b, k) { assert Meets(a + b, |a| + k); }
    if a != [] && b != [] { assert Meets(a + b, |a|); }
  }

  ghost predicate UnitsTile(units: seq<Unit>, upTo: nat) {
    && (units == [] ==> upTo == 0)
    && (units != [] ==> units[0].start == 0 && units[|units| - 1].end == upTo)
    && Linked(units)
  }

  /** No room for a label and one character. */
  predicate LabelTooLong(piece: Piece, maxBytes: int) { maxBytes - Bytes(Label(piece.segment)) < 4 }

  datatype PlanError = BudgetTooSmall | LabelDoesNotFit

  ghost predicate UnitsOf(transcript: string, pieces: seq<Piece>, maxBytes: int, units: seq<Unit>) {
    && units != [] && UnitsTile(units, |transcript|)
    && UnitsSound(transcript, pieces, maxBytes, units)
    && (transcript == [] ==> |units| == 1)
  }

  method PromptUnits(transcript: string, segments: seq<string>, maxBytes: int)
    returns (r: Result<seq<Unit>, PlanError>, ghost pieces: seq<Piece>)
    ensures PiecesOf(transcript, segments, pieces)
    ensures r.Err? <==> exists k :: 0 <= k < |pieces| && LabelTooLong(pieces[k], maxBytes)
    ensures r.Ok? ==> UnitsOf(transcript, pieces, maxBytes, r.value)
  {
    var found := SourcePieces(transcript, segments);
    pieces := found;
    var units: seq<Unit> := [];
    for i := 0 to |found|
      invariant forall k :: 0 <= k < i ==> !LabelTooLong(found[k], maxBytes)
      invariant UnitsTile(units, if i == 0 then 0 else found[i - 1].end)
      invariant i > 0 ==> units != []
      invariant UnitsSound(transcript, found, maxBytes, units)
      invariant transcript == [] ==> |units| == i
    {
      var contentBudget := maxBytes - Bytes(Label(found[i].segment));
      if contentBudget < 4 {
        assert LabelTooLong(found[i], maxBytes);
        return Err(LabelDoesNotFit), found;
      }
      PieceFacts(transcript, segments, found, i);
      units := AddUnits(transcript, found, maxBytes, units, i, contentBudget);
    }
    r := Ok(units);
  }

  lemma PieceFacts(transcript: string, segments: seq<string>, pieces: seq<Piece>, i: nat)
    requires PiecesOf(transcript, segments, pieces) && i < |pieces|
    ensures pieces[i].start <= pieces[i].end <= |transcript|
    ensures transcript != [] ==> pieces[i].start < pieces[i].end
    ensures pieces[i].start == if i == 0 then 0 else pieces[i - 1].end
    ensures pieces[|pieces| - 1].end == |transcript|
    ensures transcript == [] ==> |pieces| == 1
  {
    EndsBounded(pieces, |transcript|, i);
    if i > 0 { assert Abuts(pieces, i); }
  }

  lemma {:induction false} EndsBounded(pieces: seq<Piece>, upTo: nat, i: nat)
    requires Tiles(pieces, upTo) && i < |pieces|
    ensures pieces[i].end <= upTo
    decreases |pieces| - i
  {
    if i < |pieces| - 1 {
      EndsBounded(pieces, upTo, i + 1);
      assert Abuts(pieces, i + 1);
    }
  }

  method AddUnits(
    transcript: string, pieces: seq<Piece>, maxBytes: int, units: seq<Unit>, i: nat, contentBudget: int)
    returns (longer: seq<Unit>)
    requires i < |pieces| && pieces[i].start <= pieces[i].end <= |transcript|
    requires transcript != [] ==> pieces[i].start < pieces[i].end
    requires UnitsTile(units, pieces[i].start) && UnitsSound(transcript, pieces, maxBytes, units)
    requires contentBudget == maxBytes - Bytes(Label(pieces[i].segment)) >= 4
    ensures longer != [] && UnitsTile(longer, pieces[i].end) && UnitsSound(transcript, pieces, maxBytes, longer)
    ensures transcript == [] ==> |longer| == |units| + 1
  {
    var more := UnitsOfPiece(transcript, pieces[i], contentBudget, maxBytes);
    InPiece(transcript, pieces, maxBytes, i, more);
    AppendUnits(transcript, pieces, maxBytes, units, more, pieces[i].start, pieces[i].end);
    longer := units + more;
  }

  ghost predicate UnitsSound(transcript: string, pieces: seq<Piece>, maxBytes: int, units: seq<Unit>) {
    forall k :: 0 <= k < |units| ==>
      && UnitOf(transcript, maxBytes, units[k]) && Within(units[k], pieces)
      && (transcript != [] ==> units[k].start < units[k].end)
  }

  /** Units of a stretch `from..to`, one after the other. */
  ghost predicate Run(units: seq<Unit>, from: nat, to: nat) {
    && units != [] && units[0].start == from && units[|units| - 1].end == to
    && Linked(units)
  }

  ghost predicate Cuts(transcript: string, piece: Piece, maxBytes: int, units: seq<Unit>) {
    forall k :: 0 <= k < |units| ==>
      && UnitOf(transcript, maxBytes, units[k]) && units[k].segment == piece.segment
      && piece.start <= units[k].start && units[k].end <= piece.end
      && (piece.start < piece.end ==> units[k].start < units[k].end)
  }

  lemma InPiece(transcript: string, pieces: seq<Piece>, maxBytes: int, i: nat, units: seq<Unit>)
    requires i < |pieces| && Cuts(transcript, pieces[i], maxBytes, units)
    requires transcript != [] ==> pieces[i].start < pieces[i].end
    ensures UnitsSound(transcript, pieces, maxBytes, units)
  {
    forall k | 0 <= k < |units| ensures Within(units[k], pieces) {
      assert pieces[i].start <= units[k].start;
    }
  }

  lemma AppendUnits(
    transcript: string, pieces: seq<Piece>, maxBytes: int, units: seq<Unit>, more: seq<Unit>, middle: nat, end: nat)
    requires UnitsTile(units, middle) && Run(more, middle, end)
    requires UnitsSound(transcript, pieces, maxBytes, units) && UnitsSound(transcript, pieces, maxBytes, more)
    ensures UnitsTile(units + more, end) && UnitsSound(transcript, pieces, maxBytes, units + more)
  {
    LinkedJoin(units, more);
  }

  method UnitsOfPiece(transcript: string, piece: Piece, contentBudget: int, maxBytes: int) returns (units: seq<Unit>)
    requires piece.start <= piece.end <= |transcript|
    requires contentBudget == maxBytes - Bytes(Label(piece.segment)) >= 4
    ensures Run(units, piece.start, piece.end) && Cuts(transcript, piece, maxBytes, units)
    ensures piece.start == piece.end ==> |units| == 1
  {
    if piece.start == piece.end {
      units := [MakeUnit(transcript, piece.start, piece.end, piece.segment, maxBytes)];
    } else {
      units := PieceUnits(transcript, piece, contentBudget, maxBytes);
    }
  }

  /** The inner loop: cuts one nonempty piece into labelled units. */
  method PieceUnits(transcript: string, piece: Piece, contentBudget: int, maxBytes: int) returns (units: seq<Unit>)
    requires piece.start < piece.end <= |transcript|
    requires contentBudget == maxBytes - Bytes(Label(piece.segment)) >= 4
    ensures Run(units, piece.start, piece.end) && Cuts(transcript, piece, maxBytes, units)
  {
    units := [];
    var start := piece.start;
    while start < piece.end
      invariant piece.start <= start <= piece.end
      invariant if units == [] then start == piece.start else Run(units, piece.start, start)
      invariant Cuts(transcript, piece, maxBytes, units)
    {
      var end := BoundedEnd(transcript, start, piece.end, contentBudget);
      var unit := MakeUnit(transcript, start, end, piece.segment, maxBytes);
      LinkedJoin(units, [unit]);
      units := units + [unit];
      start := end;
    }
  }

  function MakeUnit(transcript: string, start: nat, end: nat, segment: Option<nat>, maxBytes: int): (u: Unit)
    requires start <= end <= |transcript|
    requires Bytes(transcript[start..end]) <= maxBytes - Bytes(Label(segment))
    ensures UnitOf(transcript, maxBytes, u) && u.start == start && u.end == end && u.segment == segment
  {
    var source := transcript[start..end];
    SizesAppend(Label(segment), source);
    Unit(start, end, segment, source, Label(segment) + source, Bytes(Label(segment) + source))
  }
}

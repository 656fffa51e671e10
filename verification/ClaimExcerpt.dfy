/** Quoting a located claim (src/llm/claim-source.ts:100-201): the excerpt window that
    shrinks towards the matched words until its escaped form fits, and the choice of the
    best quoted segment among those a claim cites. */
module ClaimExcerpt {

  import opened ClaimSource
  import opened Common
  import opened SummarySchema
  import opened Text

  /** A grapheme cluster and its UTF-16 offset in the text. */
  datatype Grapheme = Grapheme(text: string, index: nat)

  /** A segment's text with its word and grapheme segmentation. */
  datatype Document = Document(text: string, words: seq<WordToken>, graphemes: seq<Grapheme>)

  datatype Quotation = Quotation(found: WordMatch, excerpt: string)

  const MAX_GRAPHEMES := 120
  const MAX_ESCAPED := 320
  const ELLIPSIS := "\U{2026}"

  function Join(graphemes: seq<Grapheme>): string {
    if graphemes == [] then [] else Join(graphemes[..|graphemes| - 1]) + graphemes[|graphemes| - 1].text
  }

  /** What a segmenter delivers: nonempty clusters that tile the text, and words inside it. */
  ghost predicate Tiles(graphemes: seq<Grapheme>) {
    forall k :: 0 <= k < |graphemes| ==> graphemes[k].text != [] && graphemes[k].index == Units16(Join(graphemes[..k]))
  }

  ghost predicate Segmented(d: Document) {
    && Tiles(d.graphemes) && Join(d.graphemes) == d.text
    && forall k :: 0 <= k < |d.words| ==> d.words[k].start < d.words[k].end <= Units16(d.text)
  }

  // ---------------------------------------------------------------- escaped length

  function Escape(s: string): string {
    ReplaceAll(ReplaceAll(ReplaceAll(ReplaceAll(s, "&", "&amp;"), "<", "&lt;"), ">", "&gt;"), "\"", "&quot;")
  }

  function EscapedLength(s: string): nat { Units16(Escape(s)) }

  lemma {:induction false} ReplaceAppend(s: string, t: string, c: char, with: string)
    ensures ReplaceAll(s + t, [c], with) == ReplaceAll(s, [c], with) + ReplaceAll(t, [c], with)
    decreases |s|
  {
    if s == [] {
      assert s + t == t;
    } else {
      assert (s + t)[0] == s[0] && (s + t)[1..] == s[1..] + t;
      assert [c] <= s <==> [c] <= s + t;
      ReplaceAppend(s[1..], t, c, with);
    }
  }

  lemma ReplaceKeepsText(s: string, c: char, with: string)
    requires s != [] && with != []
    ensures ReplaceAll(s, [c], with) != []
  {
  }

  lemma EscapedLengthAppends(s: string, t: string)
    ensures EscapedLength(s + t) == EscapedLength(s) + EscapedLength(t)
  {
    ReplaceAppend(s, t, '&', "&amp;");
    var s1, t1 := ReplaceAll(s, "&", "&amp;"), ReplaceAll(t, "&", "&amp;");
    ReplaceAppend(s1, t1, '<', "&lt;");
    var s2, t2 := ReplaceAll(s1, "<", "&lt;"), ReplaceAll(t1, "<", "&lt;");
    ReplaceAppend(s2, t2, '>', "&gt;");
    var s3, t3 := ReplaceAll(s2, ">", "&gt;"), ReplaceAll(t2, ">", "&gt;");
    ReplaceAppend(s3, t3, '"', "&quot;");
    SizesAppend(Escape(s), Escape(t));
  }

  lemma EscapedLengthPositive(s: string)
    requires s != []
    ensures EscapedLength(s) >= 1
  {
    ReplaceKeepsText(s, '&', "&amp;");
    var s1 := ReplaceAll(s, "&", "&amp;");
    ReplaceKeepsText(s1, '<', "&lt;");
    var s2 := ReplaceAll(s1, "<", "&lt;");
    ReplaceKeepsText(s2, '>', "&gt;");
    ReplaceKeepsText(ReplaceAll(s2, ">", "&gt;"), '"', "&quot;");
    SizesAtLeastLength(Escape(s));
  }

  lemma ReplaceAbsent(d: char, c: char, with: string)
    requires d != c
    ensures ReplaceAll([d], [c], with) == [d]
  {
    assert [d][0] == d && [c][0] == c;
    assert ReplaceAll([d][1..], [c], with) == [];
  }

  lemma EllipsisLength()
    ensures EscapedLength(ELLIPSIS) == 1
  {
    var e := '\U{2026}';
    ReplaceAbsent(e, '&', "&amp;");
    ReplaceAbsent(e, '<', "&lt;");
    ReplaceAbsent(e, '>', "&gt;");
    ReplaceAbsent(e, '"', "&quot;");
    assert Units16([e][..0]) == 0;
  }

  // ------------------------------------------------------------------------ windows

  function Render(g: seq<Grapheme>, left: nat, right: nat): string
    requires left <= right <= |g|
  {
    (if left > 0 then ELLIPSIS else "") + Join(g[left..right]) + (if right < |g| then ELLIPSIS else "")
  }

  predicate Fits(g: seq<Grapheme>, left: nat, right: nat)
    requires left <= right <= |g|
  {
    EscapedLength(Render(g, left, right)) <= MAX_ESCAPED
  }

  lemma RenderedLength(g: seq<Grapheme>, left: nat, right: nat)
    requires left <= right <= |g|
    ensures EscapedLength(Render(g, left, right)) ==
      (if left > 0 then 1 else 0) + EscapedLength(Join(g[left..right])) + (if right < |g| then 1 else 0)
  {
    var head, tail := if left > 0 then ELLIPSIS else "", if right < |g| then ELLIPSIS else "";
    EllipsisLength();
    EscapedLengthAppends(head + Join(g[left..right]), tail);
    EscapedLengthAppends(head, Join(g[left..right]));
    assert EscapedLength("") == 0;
  }

  lemma {:induction false} JoinAppends(g: seq<Grapheme>, h: seq<Grapheme>)
    ensures Join(g + h) == Join(g) + Join(h)
  {
    if h == [] {
      assert g + h == g;
    } else {
      assert (g + h)[..|g + h| - 1] == g + h[..|h| - 1];
      JoinAppends(g, h[..|h| - 1]);
    }
  }

  lemma SplitLength(g: seq<Grapheme>, a: nat, b: nat, c: nat)
    requires a <= b <= c <= |g|
    ensures EscapedLength(Join(g[a..c])) == EscapedLength(Join(g[a..b])) + EscapedLength(Join(g[b..c]))
  {
    assert g[a..c] == g[a..b] + g[b..c];
    JoinAppends(g[a..b], g[b..c]);
    EscapedLengthAppends(Join(g[a..b]), Join(g[b..c]));
  }

  /** Dropping graphemes pays for the ellipsis it may bring. */
  lemma NarrowerIsShorter(g: seq<Grapheme>, left: nat, right: nat, l: nat, r: nat)
    requires Tiles(g) && left <= l < r <= right <= |g|
    ensures EscapedLength(Render(g, l, r)) <= EscapedLength(Render(g, left, right))
  {
    RenderedLength(g, left, right);
    RenderedLength(g, l, r);
    SplitLength(g, left, l, right);
    SplitLength(g, l, r, right);
    if left < l { PiecesTakeRoom(g, left, l); }
    if r < right { PiecesTakeRoom(g, r, right); }
  }

  lemma PiecesTakeRoom(g: seq<Grapheme>, l: nat, r: nat)
    requires Tiles(g) && l < r <= |g|
    ensures EscapedLength(Join(g[l..r])) >= 1
  {
    var piece := g[l..r];
    assert piece[|piece| - 1] == g[r - 1];
    EscapedLengthPositive(Join(piece));
  }

  /** The anchor: the grapheme holding the match's start up to the last one starting
      before its end. */
  ghost predicate Anchored(g: seq<Grapheme>, start: nat, end: nat, first: nat, after: nat) {
    && first < after <= |g|
    && (forall k :: 0 <= k < |g| ==> (g[k].index <= start <==> k <= first))
    && (forall k :: first < k < |g| ==> (g[k].index < end <==> k < after))
  }

  function FirstLeft(n: nat, first: nat, after: nat): nat {
    Max(0, Min(n - MAX_GRAPHEMES, (first + after) / 2 - MAX_GRAPHEMES / 2))
  }

  function FirstRight(n: nat, first: nat, after: nat): nat {
    Min(n, FirstLeft(n, first, after) + MAX_GRAPHEMES)
  }

  /** A short anchor starts inside the window, a long one reaches past both its ends. */
  lemma WindowStarts(n: nat, first: nat, after: nat)
    requires first < after <= n
    ensures FirstLeft(n, first, after) < FirstRight(n, first, after) <= n
    ensures after - first <= MAX_GRAPHEMES ==>
      FirstLeft(n, first, after) <= first && after <= FirstRight(n, first, after)
    ensures after - first > MAX_GRAPHEMES ==>
      first <= FirstLeft(n, first, after) && FirstRight(n, first, after) <= after
  {
  }

  /** The narrowest window considered. */
  function Tightest(n: nat, first: nat, after: nat): (nat, nat) {
    if after - first <= MAX_GRAPHEMES then (first, after) else (FirstLeft(n, first, after), FirstRight(n, first, after))
  }

  ghost predicate TightestFits(g: seq<Grapheme>, first: nat, after: nat)
    requires first < after <= |g|
  {
    WindowStarts(|g|, first, after);
    var t := Tightest(|g|, first, after);
    Fits(g, t.0, t.1)
  }

  /** `(left, right)` fits, keeps a short anchor whole, was shortened only when needed
      and on the side with more context left. */
  ghost predicate FairWindow(g: seq<Grapheme>, first: nat, after: nat, left: nat, right: nat) {
    && first < after <= |g| && left < right <= |g| && Fits(g, left, right)
    && var left0, right0 := FirstLeft(|g|, first, after), FirstRight(|g|, first, after);
    && left0 <= left && right <= right0
    && (after - first <= MAX_GRAPHEMES ==> left <= first && after <= right)
    && (left > left0 ==> first - left >= right - after - 1)
    && (right < right0 ==> right - after >= first - left)
    && JustFits(g, left0, right0, left, right)
  }

  ghost predicate JustFits(g: seq<Grapheme>, left0: nat, right0: nat, left: nat, right: nat)
    requires left0 <= left <= right <= right0 <= |g|
  {
    || (left == left0 && right == right0)
    || (left > left0 && !Fits(g, left - 1, right))
    || (right < right0 && !Fits(g, left, right + 1))
  }

  // ------------------------------------------------------------------------ methods

  lemma TilesIncrease(g: seq<Grapheme>, j: nat, k: nat)
    requires Tiles(g) && j < k < |g|
    ensures g[j].index < g[k].index
  {
    assert g[..k] == g[..j] + g[j..k];
    JoinAppends(g[..j], g[j..k]);
    SizesAppend(Join(g[..j]), Join(g[j..k]));
    var piece := g[j..k];
    assert piece[|piece| - 1] == g[k - 1];
    SizesAtLeastLength(Join(piece));
  }

  /** The first grapheme after `from` that starts at or after `limit`. */
  ghost predicate StopsAt(g: seq<Grapheme>, from: nat, limit: nat, at: nat) {
    from < at <= |g| && forall k :: from < k < |g| ==> (g[k].index < limit <==> k < at)
  }

  lemma StopsThere(g: seq<Grapheme>, from: nat, limit: nat, at: nat)
    requires Tiles(g) && from < at <= |g|
    requires at > from + 1 ==> g[at - 1].index < limit
    requires at < |g| ==> g[at].index >= limit
    ensures StopsAt(g, from, limit, at)
  {
    forall k | from < k < |g|
      ensures g[k].index < limit <==> k < at
    {
      if k < at - 1 { TilesIncrease(g, k, at - 1); }
      if k > at { TilesIncrease(g, at, k); }
    }
  }

  lemma AnchorStops(g: seq<Grapheme>, start: nat, end: nat, first: nat, after: nat)
    requires Tiles(g) && g != [] && StopsAt(g, 0, start + 1, first + 1) && StopsAt(g, first, end, after)
    ensures Anchored(g, start, end, first, after)
  {
    assert g[..0] == [];
    assert g[0].index == 0;
  }

  method AnchorStart(g: seq<Grapheme>, start: nat) returns (first: nat)
    requires Tiles(g) && g != []
    ensures StopsAt(g, 0, start + 1, first + 1)
  {
    first := 0;
    while first + 1 < |g| && g[first + 1].index <= start
      invariant first < |g|
      invariant first > 0 ==> g[first].index <= start
    {
      first := first + 1;
    }
    StopsThere(g, 0, start + 1, first + 1);
  }

  method AnchorEnd(g: seq<Grapheme>, end: nat, first: nat) returns (after: nat)
    requires Tiles(g) && first < |g|
    ensures StopsAt(g, first, end, after)
  {
    after := first + 1;
    while after < |g| && g[after].index < end
      invariant first < after <= |g|
      invariant after > first + 1 ==> g[after - 1].index < end
    {
      after := after + 1;
    }
    StopsThere(g, first, end, after);
  }

  method AnchorOf(g: seq<Grapheme>, start: nat, end: nat) returns (first: nat, after: nat)
    requires Tiles(g) && g != []
    ensures Anchored(g, start, end, first, after)
  {
    first := AnchorStart(g, start);
    after := AnchorEnd(g, end, first);
    AnchorStops(g, start, end, first, after);
  }

  /** What every window of the shrink loop satisfies. */
  ghost predicate Shrinking(g: seq<Grapheme>, first: nat, after: nat, left: nat, right: nat) {
    && first < after <= |g|
    && var left0, right0 := FirstLeft(|g|, first, after), FirstRight(|g|, first, after);
    && left0 <= left < right <= right0
    && (after - first <= MAX_GRAPHEMES ==> left <= first && after <= right)
    && (after - first > MAX_GRAPHEMES ==> left == left0 && right == right0)
    && (left > left0 ==> first - left >= right - after - 1)
    && (right < right0 ==> right - after >= first - left)
    && JustFits(g, left0, right0, left, right)
  }

  lemma FairDecides(g: seq<Grapheme>, first: nat, after: nat, left: nat, right: nat)
    requires Tiles(g) && Shrinking(g, first, after, left, right)
    ensures Fits(g, left, right) ==> FairWindow(g, first, after, left, right) && TightestFits(g, first, after)
    ensures !Fits(g, left, right) && left >= first && right <= after ==> !TightestFits(g, first, after)
  {
    if Fits(g, left, right) {
      FairFits(g, first, after, left, right);
    } else if left >= first && right <= after {
      NarrowestDecides(g, first, after, left, right);
    }
  }

  /** Nothing but the anchor is left and it still does not fit. */
  lemma NarrowestDecides(g: seq<Grapheme>, first: nat, after: nat, left: nat, right: nat)
    requires Shrinking(g, first, after, left, right) && !Fits(g, left, right)
    requires left >= first && right <= after
    ensures !TightestFits(g, first, after)
  {
    NarrowestIsTightest(|g|, first, after, left, right);
  }

  lemma NarrowestIsTightest(n: nat, first: nat, after: nat, left: nat, right: nat)
    requires first < after <= n && first <= left && right <= after
    requires after - first <= MAX_GRAPHEMES ==> left <= first && after <= right
    requires after - first > MAX_GRAPHEMES ==>
      left == FirstLeft(n, first, after) && right == FirstRight(n, first, after)
    ensures Tightest(n, first, after) == (left, right)
  {
  }

  lemma FairFits(g: seq<Grapheme>, first: nat, after: nat, left: nat, right: nat)
    requires Tiles(g) && Shrinking(g, first, after, left, right) && Fits(g, left, right)
    ensures FairWindow(g, first, after, left, right) && TightestFits(g, first, after)
  {
    WindowStarts(|g|, first, after);
    if after - first <= MAX_GRAPHEMES { NarrowerIsShorter(g, left, right, first, after); }
  }

  lemma ShrinkStarts(g: seq<Grapheme>, first: nat, after: nat)
    requires first < after <= |g|
    ensures Shrinking(g, first, after, FirstLeft(|g|, first, after), FirstRight(|g|, first, after))
  {
    WindowStarts(|g|, first, after);
  }

  lemma ShrinkKeeps(g: seq<Grapheme>, first: nat, after: nat, left: nat, right: nat)
    requires Shrinking(g, first, after, left, right) && !Fits(g, left, right)
    requires first > left || right > after
    ensures right - after > first - left && right > after ==> Shrinking(g, first, after, left, right - 1)
    ensures !(right - after > first - left && right > after) ==>
      left < first && Shrinking(g, first, after, left + 1, right)
  {
    WindowStarts(|g|, first, after);
  }

  /** One grapheme of context less, on the side that has more; the last branch is never
      taken. */
  method NarrowOnce(g: seq<Grapheme>, first: nat, after: nat, left: nat, right: nat) returns (l: nat, r: nat)
    requires Shrinking(g, first, after, left, right) && !Fits(g, left, right)
    requires first > left || right > after
    ensures Shrinking(g, first, after, l, r) && r - l < right - left
  {
    ShrinkKeeps(g, first, after, left, right);
    var leftContext, rightContext := first - left, right - after;
    l, r := left, right;
    if rightContext > leftContext && right > after {
      r := right - 1;
    } else if left < first {
      l := left + 1;
    } else {
      assert false;
    }
  }

  lemma WindowBounds(g: seq<Grapheme>, first: nat, after: nat, left: nat, right: nat)
    requires Shrinking(g, first, after, left, right)
    ensures left < right <= |g|
  {
  }

  /** The shrink loop ends, and succeeds exactly when the narrowest window fits. */
  method ShrinkWindow(g: seq<Grapheme>, first: nat, after: nat) returns (w: Option<(nat, nat)>)
    requires Tiles(g) && first < after <= |g|
    ensures w.Some? ==> FairWindow(g, first, after, w.value.0, w.value.1)
    ensures w.Some? <==> TightestFits(g, first, after)
  {
    ShrinkStarts(g, first, after);
    var left: nat := Max(0, Min(|g| - MAX_GRAPHEMES, (first + after) / 2 - MAX_GRAPHEMES / 2));
    var right: nat := Min(|g|, left + MAX_GRAPHEMES);
    WindowBounds(g, first, after, left, right);
    while !Fits(g, left, right)
      invariant left < right <= |g| && Shrinking(g, first, after, left, right)
      decreases right - left
    {
      if first - left <= 0 && right - after <= 0 {
        FairDecides(g, first, after, left, right);
        return None;
      }
      left, right := NarrowOnce(g, first, after, left, right);
      WindowBounds(g, first, after, left, right);
    }
    FairDecides(g, first, after, left, right);
    w := Some((left, right));
  }

  /** The match the word search reports: the first best one, unless it is too weak. */
  ghost predicate Usable(claim: seq<WordToken>, words: seq<WordToken>, m: WordMatch) {
    !TooWeak(claim, m) && exists end: nat :: FirstBest(claim, words, m, end)
  }

  ghost predicate Quotable(g: seq<Grapheme>, m: WordMatch) {
    exists first: nat, after: nat :: Anchored(g, m.start, m.end, first, after) && TightestFits(g, first, after)
  }

  ghost predicate Quotes(g: seq<Grapheme>, q: Quotation, first: nat, after: nat, left: nat, right: nat) {
    && Anchored(g, q.found.start, q.found.end, first, after) && FairWindow(g, first, after, left, right)
    && q.excerpt == Render(g, left, right)
  }

  /** What quoting a claim from one segment promises. */
  ghost predicate Localizes(claim: seq<WordToken>, d: Document, r: Option<Quotation>) {
    && (r.Some? <==> exists m :: Usable(claim, d.words, m) && Quotable(d.graphemes, m))
    && (r.Some? ==>
          && Usable(claim, d.words, r.value.found) && EscapedLength(r.value.excerpt) <= MAX_ESCAPED
          && exists first, after, left, right :: Quotes(d.graphemes, r.value, first, after, left, right))
  }

  lemma OneUsable(claim: seq<WordToken>, words: seq<WordToken>, a: WordMatch, b: WordMatch)
    requires Usable(claim, words, a) && Usable(claim, words, b)
    ensures a == b
  {
    var end: nat :| FirstBest(claim, words, a, end);
    FirstBestUnique(claim, words, a, end);
  }

  lemma OneAnchor(g: seq<Grapheme>, start: nat, end: nat, f1: nat, a1: nat, f2: nat, a2: nat)
    requires Anchored(g, start, end, f1, a1) && Anchored(g, start, end, f2, a2)
    ensures f1 == f2 && a1 == a2
  {
    assert g[f1].index <= start && g[f2].index <= start;
    assert a1 < |g| ==> !(g[a1].index < end);
    assert a2 < |g| ==> !(g[a2].index < end);
  }

  method LocalizedExcerpt(claim: seq<WordToken>, d: Document) returns (r: Option<Quotation>)
    requires Segmented(d)
    ensures Localizes(claim, d, r)
  {
    var m := BestWordMatch(claim, d.words);
    if m.None? {
      return None;
    }
    var found := m.value;
    assert Usable(claim, d.words, found);
    assert d.graphemes != [] by { MatchNeedsText(claim, d, found); }
    var first, after := AnchorOf(d.graphemes, found.start, found.end);
    var w := ShrinkWindow(d.graphemes, first, after);
    assert Quotable(d.graphemes, found) <==> w.Some? by {
      forall f: nat, a: nat | Anchored(d.graphemes, found.start, found.end, f, a)
        ensures f == first && a == after
      {
        OneAnchor(d.graphemes, found.start, found.end, first, after, f, a);
      }
    }
    forall other | Usable(claim, d.words, other)
      ensures other == found
    {
      OneUsable(claim, d.words, other, found);
    }
    if w.None? {
      return None;
    }
    r := Some(Quotation(found, Render(d.graphemes, w.value.0, w.value.1)));
    assert Quotes(d.graphemes, r.value, first, after, w.value.0, w.value.1);
  }

  lemma MatchNeedsText(claim: seq<WordToken>, d: Document, m: WordMatch)
    requires Segmented(d) && Usable(claim, d.words, m)
    ensures d.graphemes != []
  {
    var end: nat :| FirstBest(claim, d.words, m, end);
    assert d.words[end - 1].end > 0;
  }

  // --------------------------------------------------------------- choosing a segment

  datatype Resolution =
    | Missing
    | Referenced(segments: seq<nat>)
    | Unlocalized(segments: seq<nat>)
    | Localized(segments: seq<nat>, segment: nat, excerpt: string)

  /** The first evidence entry for the claim. */
  function Cited(evidence: seq<ClaimEvidence>, field: ClaimField, item: nat): seq<nat> {
    if evidence == [] then []
    else if evidence[0].field == field && evidence[0].item == item then evidence[0].segments
    else Cited(evidence[1..], field, item)
  }

  predicate HasText(transcript: seq<Document>, segment: nat) {
    segment < |transcript| && transcript[segment].text != []
  }

  /** `outcomes[k]` is what quoting from the `k`-th cited segment gives. */
  ghost predicate Outcomes(
    claim: seq<WordToken>, transcript: seq<Document>, cited: seq<nat>, outcomes: seq<Option<Quotation>>)
  {
    && |outcomes| == |cited|
    && forall k :: 0 <= k < |cited| ==> OutcomeOf(claim, transcript, cited[k], outcomes[k])
  }

  ghost predicate OutcomeOf(claim: seq<WordToken>, transcript: seq<Document>, segment: nat, outcome: Option<Quotation>)
  {
    if HasText(transcript, segment) then Localizes(claim, transcript[segment], outcome) else outcome.None?
  }

  /** `outcomes[at]` is the first of the best quotations. */
  ghost predicate Chosen(outcomes: seq<Option<Quotation>>, at: nat) {
    && at < |outcomes| && outcomes[at].Some?
    && forall k :: 0 <= k < |outcomes| && outcomes[k].Some? ==>
         && !Better(outcomes[k].value.found, outcomes[at].value.found)
         && (AsGood(outcomes[k].value.found, outcomes[at].value.found) ==> at <= k)
  }

  ghost predicate Resolves(transcript: seq<Document>, cited: seq<nat>, outcomes: seq<Option<Quotation>>, r: Resolution)
  {
    && |outcomes| == |cited|
    && (r == Missing <==> cited == [])
    && (!r.Missing? ==> r.segments == cited)
    && (r.Localized? <==> exists k :: 0 <= k < |outcomes| && outcomes[k].Some?)
    && (r.Localized? ==> exists at: nat ::
          Chosen(outcomes, at) && r.segment == cited[at] && r.excerpt == outcomes[at].value.excerpt)
    && (!r.Missing? && !r.Localized? ==> (r.Unlocalized? <==> AnyText(transcript, cited)))
  }

  ghost predicate AnyText(transcript: seq<Document>, cited: seq<nat>) {
    exists s :: s in cited && HasText(transcript, s)
  }

  ghost predicate BestSoFarAt(
    cited: seq<nat>, outcomes: seq<Option<Quotation>>, best: Option<(nat, Quotation)>, at: nat)
  {
    && |outcomes| <= |cited|
    && (best.None? ==> forall p :: 0 <= p < |outcomes| ==> outcomes[p].None?)
    && (best.Some? ==> Chosen(outcomes, at) && best.value == (cited[at], outcomes[at].value))
  }

  lemma BestStepsTo(
    cited: seq<nat>, outcomes: seq<Option<Quotation>>, best: Option<(nat, Quotation)>, at: nat, next: Option<Quotation>)
    requires |outcomes| < |cited| && BestSoFarAt(cited, outcomes, best, at)
    ensures
      if next.Some? && (best.None? || Better(next.value.found, best.value.1.found))
      then BestSoFarAt(cited, outcomes + [next], Some((cited[|outcomes|], next.value)), |outcomes|)
      else BestSoFarAt(cited, outcomes + [next], best, at)
  {
  }

  /** The resolution is the right one for what quoting from the cited segments gives. */
  ghost predicate ResolvedFrom(claim: seq<WordToken>, transcript: seq<Document>, cited: seq<nat>, r: Resolution) {
    exists outcomes :: Outcomes(claim, transcript, cited, outcomes) && Resolves(transcript, cited, outcomes, r)
  }

  /** Quoting from one cited segment; segments without text are skipped. */
  method QuoteFrom(claim: seq<WordToken>, transcript: seq<Document>, segment: nat) returns (r: Option<Quotation>)
    requires forall k :: 0 <= k < |transcript| ==> Segmented(transcript[k])
    ensures OutcomeOf(claim, transcript, segment, r)
  {
    if segment < |transcript| && transcript[segment].text != [] {
      r := LocalizedExcerpt(claim, transcript[segment]);
    } else {
      r := None;
    }
  }

  lemma Concludes(
    transcript: seq<Document>, cited: seq<nat>, outcomes: seq<Option<Quotation>>, best: Option<(nat, Quotation)>,
    at: nat)
    requires cited != [] && |outcomes| == |cited| && BestSoFarAt(cited, outcomes, best, at)
    ensures Resolves(transcript, cited, outcomes, Conclusion(transcript, cited, best))
  {
  }

  ghost function Conclusion(transcript: seq<Document>, cited: seq<nat>, best: Option<(nat, Quotation)>): Resolution {
    if best.Some? then Localized(cited, best.value.0, best.value.1.excerpt)
    else if AnyText(transcript, cited) then Unlocalized(cited) else Referenced(cited)
  }

  lemma OutcomesAppend(
    claim: seq<WordToken>, transcript: seq<Document>, cited: seq<nat>, outcomes: seq<Option<Quotation>>,
    segment: nat, next: Option<Quotation>)
    requires Outcomes(claim, transcript, cited, outcomes) && OutcomeOf(claim, transcript, segment, next)
    ensures Outcomes(claim, transcript, cited + [segment], outcomes + [next])
  {
  }

  lemma AnyTextAppend(transcript: seq<Document>, cited: seq<nat>, segment: nat)
    ensures AnyText(transcript, cited + [segment]) <==> AnyText(transcript, cited) || HasText(transcript, segment)
  {
    assert segment in cited + [segment];
    if s :| s in cited && HasText(transcript, s) { assert s in cited + [segment]; }
  }

  method ResolveClaimSource(
    evidence: seq<ClaimEvidence>, field: ClaimField, item: nat, claim: seq<WordToken>, transcript: seq<Document>)
    returns (r: Resolution)
    requires forall k :: 0 <= k < |transcript| ==> Segmented(transcript[k])
    ensures ResolvedFrom(claim, transcript, Cited(evidence, field, item), r)
  {
    var segments := Cited(evidence, field, item);
    ghost var outcomes: seq<Option<Quotation>> := [];
    if segments == [] {
      assert Outcomes(claim, transcript, segments, outcomes) && Resolves(transcript, segments, outcomes, Missing);
      return Missing;
    }
    var best: Option<(nat, Quotation)> := None;
    ghost var at: nat := 0;
    var hasSourceText := false;
    for k := 0 to |segments|
      invariant Outcomes(claim, transcript, segments[..k], outcomes)
      invariant BestSoFarAt(segments, outcomes, best, at)
      invariant hasSourceText <==> AnyText(transcript, segments[..k])
    {
      var segment := segments[k];
      assert segments[..k + 1] == segments[..k] + [segment];
      hasSourceText := hasSourceText || HasText(transcript, segment);
      var found := QuoteFrom(claim, transcript, segment);
      BestStepsTo(segments, outcomes, best, at, found);
      OutcomesAppend(claim, transcript, segments[..k], outcomes, segment, found);
      AnyTextAppend(transcript, segments[..k], segment);
      outcomes := outcomes + [found];
      if found.Some? && (best.None? || Better(found.value.found, best.value.1.found)) {
        best, at := Some((segment, found.value)), k;
      }
    }
    assert segments[..|segments|] == segments;
    Concludes(transcript, segments, outcomes, best, at);
    if best.Some? {
      r := Localized(segments, best.value.0, best.value.1.excerpt);
    } else {
      r := if hasSourceText then Unlocalized(segments) else Referenced(segments);
    }
  }
}

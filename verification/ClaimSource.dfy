/** Finding a claim's words in a source segment (src/llm/claim-source.ts:55-98): the
    row-by-row dynamic program, proved to return what trying every common run would. */
module ClaimSource {

  import opened Common
  import opened Text

  /** A word in normalized form with its place in the source text. */
  datatype WordToken = WordToken(normalized: string, start: nat, end: nat)

  datatype WordMatch = WordMatch(start: nat, end: nat, wordCount: nat, characterCount: nat)

  // ------------------------------------------------- exhaustive search, as reference

  function Words(tokens: seq<WordToken>): seq<string> {
    seq(|tokens|, k requires 0 <= k < |tokens| => tokens[k].normalized)
  }

  /** The `n` words of `claim` ending before `i` are the `n` words of `source` ending before `j`. */
  ghost predicate CommonRun(claim: seq<WordToken>, source: seq<WordToken>, i: nat, j: nat, n: nat) {
    n <= i <= |claim| && n <= j <= |source| && Words(claim[i - n..i]) == Words(source[j - n..j])
  }

  function Characters(words: seq<WordToken>): nat {
    if words == [] then 0 else Characters(words[..|words| - 1]) + Units16(words[|words| - 1].normalized)
  }

  /** What a run of `n` source words ending before `j` is reported as. */
  function RunMatch(source: seq<WordToken>, j: nat, n: nat): WordMatch
    requires 0 < n <= j <= |source|
  {
    WordMatch(source[j - n].start, source[j - 1].end, n, Characters(source[j - n..j]))
  }

  /** More words, or as many with more characters. */
  predicate Better(a: WordMatch, b: WordMatch) {
    a.wordCount > b.wordCount || (a.wordCount == b.wordCount && a.characterCount > b.characterCount)
  }

  predicate AsGood(a: WordMatch, b: WordMatch) {
    a.wordCount == b.wordCount && a.characterCount == b.characterCount
  }

  /** `best` is the run ending before `end`; no common run is better, and every one as
      good ends no earlier. */
  ghost predicate FirstBest(claim: seq<WordToken>, source: seq<WordToken>, best: WordMatch, end: nat) {
    && 0 < best.wordCount <= end <= |source| && best == RunMatch(source, end, best.wordCount)
    && (exists i :: CommonRun(claim, source, i, end, best.wordCount))
    && (forall i, j, n | n > 0 && CommonRun(claim, source, i, j, n) ::
          && !Better(RunMatch(source, j, n), best)
          && (AsGood(RunMatch(source, j, n), best) ==> end <= j))
  }

  ghost predicate NoCommonWord(claim: seq<WordToken>, source: seq<WordToken>) {
    forall i, j, n :: n > 0 ==> !CommonRun(claim, source, i, j, n)
  }

  // ------------------------------------------------------------- the dynamic program

  /** Length of the longest run ending exactly before `i` and before `j`. */
  function Longest(claim: seq<WordToken>, source: seq<WordToken>, i: nat, j: nat): (n: nat)
    requires i <= |claim| && j <= |source|
    ensures n <= i && n <= j
  {
    if i == 0 || j == 0 || claim[i - 1].normalized != source[j - 1].normalized then 0
    else Longest(claim, source, i - 1, j - 1) + 1
  }

  /** The recurrence measures exactly the common runs. */
  lemma {:induction false} LongestIsLongest(claim: seq<WordToken>, source: seq<WordToken>, i: nat, j: nat, n: nat)
    requires n <= i <= |claim| && n <= j <= |source|
    ensures CommonRun(claim, source, i, j, n) <==> n <= Longest(claim, source, i, j)
  {
    if n > 0 {
      var a, b := Words(claim[i - n..i]), Words(source[j - n..j]);
      assert a == Words(claim[i - n..i - 1]) + [claim[i - 1].normalized];
      assert b == Words(source[j - n..j - 1]) + [source[j - 1].normalized];
      assert a[n - 1] == claim[i - 1].normalized && b[n - 1] == source[j - 1].normalized;
      assert a[..n - 1] == Words(claim[i - n..i - 1]) && b[..n - 1] == Words(source[j - n..j - 1]);
      LongestIsLongest(claim, source, i - 1, j - 1, n - 1);
    } else {
      assert claim[i..i] == [] && source[j..j] == [];
    }
  }

  /** Row `j` of the table, keyed by the run's last claim word. */
  ghost predicate Row(claim: seq<WordToken>, source: seq<WordToken>, j: nat, row: map<int, WordMatch>) {
    && j <= |source|
    && (forall i :: i in row <==> 0 <= i < |claim| && Longest(claim, source, i + 1, j) > 0)
    && (forall i :: i in row ==> row[i] == RunMatch(source, j, Longest(claim, source, i + 1, j)))
  }

  /** One more word extends the previous row's run at the previous claim word, or
      starts a run. */
  function Candidate(prefix: Option<WordMatch>, word: WordToken): WordMatch {
    WordMatch(
      if prefix.Some? then prefix.value.start else word.start,
      word.end,
      (if prefix.Some? then prefix.value.wordCount else 0) + 1,
      (if prefix.Some? then prefix.value.characterCount else 0) + Units16(word.normalized))
  }

  function Get(row: map<int, WordMatch>, i: int): Option<WordMatch> {
    if i in row then Some(row[i]) else None
  }

  lemma LongerRun(source: seq<WordToken>, j: nat, n: nat)
    requires n <= j < |source|
    ensures Characters(source[j - n..j + 1]) == Characters(source[j - n..j]) + Units16(source[j].normalized)
  {
    var run := source[j - n..j + 1];
    assert run[..|run| - 1] == source[j - n..j] && run[|run| - 1] == source[j];
  }

  lemma RunExtends(source: seq<WordToken>, j: nat, n: nat)
    requires n <= j < |source|
    ensures Candidate(if n == 0 then None else Some(RunMatch(source, j, n)), source[j])
      == RunMatch(source, j + 1, n + 1)
  {
    LongerRun(source, j, n);
    if n == 0 { assert source[j..j] == []; }
  }

  /** What the previous row holds for the previous claim word. */
  lemma PreviousRun(claim: seq<WordToken>, source: seq<WordToken>, j: nat, previous: map<int, WordMatch>, i: nat)
    requires Row(claim, source, j, previous) && i <= |claim|
    ensures
      var n := Longest(claim, source, i, j);
      Get(previous, i - 1) == if n == 0 then None else Some(RunMatch(source, j, n))
  {
    if i > 0 { assert i - 1 in previous <==> Longest(claim, source, (i - 1) + 1, j) > 0; }
  }

  lemma LongestGrows(claim: seq<WordToken>, source: seq<WordToken>, i: nat, j: nat)
    requires i < |claim| && j < |source| && claim[i].normalized == source[j].normalized
    ensures Longest(claim, source, i + 1, j + 1) == Longest(claim, source, i, j) + 1
  {
  }

  lemma CandidateExtends(
    claim: seq<WordToken>, source: seq<WordToken>, j: nat, previous: map<int, WordMatch>, i: nat)
    requires Row(claim, source, j, previous) && j < |source| && i < |claim|
    requires claim[i].normalized == source[j].normalized
    ensures Candidate(Get(previous, i - 1), source[j]) == RunMatch(source, j + 1, Longest(claim, source, i + 1, j + 1))
  {
    PreviousRun(claim, source, j, previous, i);
    LongestGrows(claim, source, i, j);
    RunExtends(source, j, Longest(claim, source, i, j));
  }

  /** Table cells taken into account so far: all rows up to `rows`, and of the next one
      the claim words in `done`. */
  predicate Scanned(claim: seq<WordToken>, source: seq<WordToken>, i: nat, j: nat, rows: nat, done: set<int>) {
    i <= |claim| && j <= |source| && (j <= rows || (j == rows + 1 && i - 1 in done))
  }

  /** `best` beats, or came before, the longest run of a table cell. */
  ghost predicate Yields(
    claim: seq<WordToken>, source: seq<WordToken>, i: nat, j: nat, best: Option<WordMatch>, end: nat)
    requires i <= |claim| && j <= |source|
  {
    var n := Longest(claim, source, i, j);
    n > 0 ==>
      && best.Some? && !Better(RunMatch(source, j, n), best.value)
      && (AsGood(RunMatch(source, j, n), best.value) ==> end <= j)
  }

  ghost predicate IsRun(
    claim: seq<WordToken>, source: seq<WordToken>, m: WordMatch, end: nat, at: nat)
  {
    && at <= |claim| && 0 < m.wordCount <= end <= |source|
    && m.wordCount <= Longest(claim, source, at, end) && m == RunMatch(source, end, m.wordCount)
  }

  ghost predicate BestSoFar(
    claim: seq<WordToken>, source: seq<WordToken>, rows: nat, done: set<int>, best: Option<WordMatch>, end: nat,
    at: nat)
  {
    && (best.Some? ==> IsRun(claim, source, best.value, end, at) && end <= rows + 1)
    && (forall i: nat, j: nat :: Scanned(claim, source, i, j, rows, done) ==> Yields(claim, source, i, j, best, end))
  }

  lemma Settled(
    claim: seq<WordToken>, source: seq<WordToken>, best: Option<WordMatch>, end: nat, at: nat)
    requires BestSoFar(claim, source, |source|, {}, best, end, at)
    ensures best.None? ==> NoCommonWord(claim, source)
    ensures best.Some? ==> FirstBest(claim, source, best.value, end)
  {
    forall i, j, n | n > 0 && CommonRun(claim, source, i, j, n)
      ensures best.Some? && !Better(RunMatch(source, j, n), best.value)
      ensures best.Some? && (AsGood(RunMatch(source, j, n), best.value) ==> end <= j)
    {
      LongestIsLongest(claim, source, i, j, n);
      assert Scanned(claim, source, i, j, |source|, {});
    }
    if best.Some? { LongestIsLongest(claim, source, at, end, best.value.wordCount); }
  }

  /** The reported match is determined by the two texts. */
  lemma FirstBestUnique(claim: seq<WordToken>, source: seq<WordToken>, best: WordMatch, end: nat)
    requires FirstBest(claim, source, best, end)
    ensures forall m, e: nat :: FirstBest(claim, source, m, e) ==> m == best && e == end
  {
    forall m, e: nat | FirstBest(claim, source, m, e)
      ensures m == best && e == end
    {
      assert !Better(RunMatch(source, e, m.wordCount), best) && !Better(RunMatch(source, end, best.wordCount), m);
    }
  }

  // ------------------------------------------------------------------------ methods

  ghost predicate IndexesOf(claim: seq<WordToken>, upTo: nat, positions: map<string, seq<nat>>) {
    && upTo <= |claim|
    && (forall w :: w in positions ==> forall p :: p in positions[w] ==> p < upTo && claim[p].normalized == w)
    && (forall p :: 0 <= p < upTo ==> claim[p].normalized in positions && p in positions[claim[p].normalized])
  }

  /** `matching` lists the claim positions of a word. */
  ghost predicate Matching(claim: seq<WordToken>, word: string, matching: seq<nat>) {
    && (forall p :: 0 <= p < |matching| ==> matching[p] < |claim| && claim[matching[p]].normalized == word)
    && (forall p :: 0 <= p < |claim| && claim[p].normalized == word ==> p in matching)
  }

  function Lookup(positions: map<string, seq<nat>>, word: string): seq<nat> {
    if word in positions then positions[word] else []
  }

  lemma LookupMatches(claim: seq<WordToken>, positions: map<string, seq<nat>>, word: string)
    requires IndexesOf(claim, |claim|, positions)
    ensures Matching(claim, word, Lookup(positions, word))
  {
    var matching := Lookup(positions, word);
    forall p | 0 <= p < |matching|
      ensures matching[p] < |claim| && claim[matching[p]].normalized == word
    {
      assert matching[p] in positions[word];
    }
  }

  method IndexClaim(claim: seq<WordToken>) returns (positions: map<string, seq<nat>>)
    ensures IndexesOf(claim, |claim|, positions)
  {
    positions := map[];
    for index := 0 to |claim|
      invariant IndexesOf(claim, index, positions)
    {
      var word := claim[index].normalized;
      positions := positions[word := Lookup(positions, word) + [index]];
    }
  }

  /** Row `j + 1` filled in for the claim positions in `done`. */
  ghost predicate RowSoFar(
    claim: seq<WordToken>, source: seq<WordToken>, j: nat, done: seq<nat>, current: map<int, WordMatch>)
  {
    && j < |source|
    && (forall i :: i in current <==> i in done)
    && (forall i :: i in current ==>
          && 0 <= i < |claim| && Longest(claim, source, i + 1, j + 1) > 0
          && current[i] == RunMatch(source, j + 1, Longest(claim, source, i + 1, j + 1)))
  }

  lemma RowComplete(
    claim: seq<WordToken>, source: seq<WordToken>, j: nat, done: seq<nat>, current: map<int, WordMatch>,
    best: Option<WordMatch>, end: nat, at: nat)
    requires RowSoFar(claim, source, j, done, current)
    requires BestSoFar(claim, source, j, current.Keys, best, end, at)
    requires forall p :: 0 <= p < |claim| && claim[p].normalized == source[j].normalized ==> p in done
    ensures Row(claim, source, j + 1, current)
    ensures BestSoFar(claim, source, j + 1, {}, best, end, at)
  {
    forall i: nat, k: nat | Scanned(claim, source, i, k, j + 1, {})
      ensures Yields(claim, source, i, k, best, end)
    {
      if k <= j || i - 1 in done {
        assert Scanned(claim, source, i, k, j, current.Keys);
      } else {
        assert Longest(claim, source, i, k) == 0;
      }
    }
  }

  /** The cell of claim word `i` in row `j + 1` joins the scanned ones. */
  lemma BestSteps(
    claim: seq<WordToken>, source: seq<WordToken>, j: nat, done: set<int>, i: nat,
    best: Option<WordMatch>, end: nat, at: nat)
    requires j < |source| && i < |claim| && Longest(claim, source, i + 1, j + 1) > 0
    requires BestSoFar(claim, source, j, done, best, end, at)
    ensures var c := RunMatch(source, j + 1, Longest(claim, source, i + 1, j + 1));
      if best.None? || Better(c, best.value)
      then BestSoFar(claim, source, j, done + {i}, Some(c), j + 1, i + 1)
      else BestSoFar(claim, source, j, done + {i}, best, end, at)
  {
    var c := RunMatch(source, j + 1, Longest(claim, source, i + 1, j + 1));
    var better := best.None? || Better(c, best.value);
    var best', end' := if better then Some(c) else best, if better then j + 1 else end;
    forall a: nat, b: nat | Scanned(claim, source, a, b, j, done + {i})
      ensures Yields(claim, source, a, b, best', end')
    {
      if Scanned(claim, source, a, b, j, done) {
        if better { StillYields(claim, source, a, b, best, end, c, j + 1); }
      } else {
        assert a == i + 1 && b == j + 1;
      }
    }
  }

  lemma StillYields(
    claim: seq<WordToken>, source: seq<WordToken>, a: nat, b: nat, best: Option<WordMatch>, end: nat, c: WordMatch,
    at: nat)
    requires a <= |claim| && b <= |source| && Yields(claim, source, a, b, best, end)
    requires best.None? || Better(c, best.value)
    ensures Yields(claim, source, a, b, Some(c), at)
  {
  }

  lemma RowSteps(
    claim: seq<WordToken>, source: seq<WordToken>, j: nat, done: seq<nat>, current: map<int, WordMatch>, i: nat,
    c: WordMatch)
    requires RowSoFar(claim, source, j, done, current) && i < |claim| && Longest(claim, source, i + 1, j + 1) > 0
    requires c == RunMatch(source, j + 1, Longest(claim, source, i + 1, j + 1))
    ensures RowSoFar(claim, source, j, done + [i], current[i as int := c])
  {
  }

  lemma ScanSteps(
    claim: seq<WordToken>, source: seq<WordToken>, j: nat, previous: map<int, WordMatch>,
    done: seq<nat>, current: map<int, WordMatch>, i: nat, best: Option<WordMatch>, end: nat, at: nat)
    requires Row(claim, source, j, previous) && RowSoFar(claim, source, j, done, current)
    requires i < |claim| && claim[i].normalized == source[j].normalized
    requires BestSoFar(claim, source, j, current.Keys, best, end, at)
    ensures var c := Candidate(Get(previous, i - 1), source[j]);
      && RowSoFar(claim, source, j, done + [i], current[i as int := c])
      && if best.None? || Better(c, best.value)
         then BestSoFar(claim, source, j, current[i as int := c].Keys, Some(c), j + 1, i + 1)
         else BestSoFar(claim, source, j, current[i as int := c].Keys, best, end, at)
  {
    var c := Candidate(Get(previous, i - 1), source[j]);
    CandidateExtends(claim, source, j, previous, i);
    LongestGrows(claim, source, i, j);
    RowSteps(claim, source, j, done, current, i, c);
    BestSteps(claim, source, j, current.Keys, i, best, end, at);
    assert current[i as int := c].Keys == current.Keys + {i};
  }

  /** One source word against the claim positions that hold it. */
  method ScanWord(
    claim: seq<WordToken>, source: seq<WordToken>, j: nat, matching: seq<nat>, previous: map<int, WordMatch>,
    best0: Option<WordMatch>, ghost end0: nat, ghost at0: nat)
    returns (current: map<int, WordMatch>, best: Option<WordMatch>, ghost end: nat, ghost at: nat)
    requires j < |source| && Row(claim, source, j, previous)
    requires Matching(claim, source[j].normalized, matching)
    requires BestSoFar(claim, source, j, {}, best0, end0, at0)
    ensures Row(claim, source, j + 1, current)
    ensures BestSoFar(claim, source, j + 1, {}, best, end, at)
  {
    current, best, end, at := map[], best0, end0, at0;
    for p := 0 to |matching|
      invariant RowSoFar(claim, source, j, matching[..p], current)
      invariant BestSoFar(claim, source, j, current.Keys, best, end, at)
    {
      var i: int := matching[p];
      var candidate := Candidate(Get(previous, i - 1), source[j]);
      ScanSteps(claim, source, j, previous, matching[..p], current, i, best, end, at);
      assert matching[..p + 1] == matching[..p] + [i];
      current := current[i := candidate];
      if best.None? || Better(candidate, best.value) {
        best, end, at := Some(candidate), j + 1, i + 1;
      }
    }
    assert matching[..|matching|] == matching;
    RowComplete(claim, source, j, matching, current, best, end, at);
  }

  /** A lone matching word is too weak when the claim has more words or the word has
      fewer than three characters. */
  predicate TooWeak(claim: seq<WordToken>, m: WordMatch) {
    m.wordCount == 1 && (|claim| > 1 || m.characterCount < 3)
  }

  method BestWordMatch(claim: seq<WordToken>, source: seq<WordToken>) returns (r: Option<WordMatch>)
    ensures r.Some? <==> exists m, end: nat :: FirstBest(claim, source, m, end) && !TooWeak(claim, m)
    ensures r.Some? ==> exists end: nat :: FirstBest(claim, source, r.value, end) && !TooWeak(claim, r.value)
  {
    ghost var end, at: nat := 0, 0;
    var best: Option<WordMatch> := None;
    if |claim| > 0 && |source| > 0 {
      var positions := IndexClaim(claim);
      var previous: map<int, WordMatch> := map[];
      for j := 0 to |source|
        invariant Row(claim, source, j, previous)
        invariant BestSoFar(claim, source, j, {}, best, end, at)
      {
        LookupMatches(claim, positions, source[j].normalized);
        previous, best, end, at :=
          ScanWord(claim, source, j, Lookup(positions, source[j].normalized), previous, best, end, at);
      }
    }
    Settled(claim, source, best, end, at);
    r := if best.Some? && !TooWeak(claim, best.value) then best else None;
    if best.Some? { FirstBestUnique(claim, source, best.value, end); }
  }
}

/** Scoring of a summary against expected facts (src/llm/summary-quality.ts).

    `FactMatcher` runs the augmenting-path search over its mutable owner map; the
    theorems say that the number it returns is the size of a maximum one-to-one
    matching, so the score depends on nothing but which claims were made.

    Claim texts and fact terms are given in normalized form. */
module SummaryQuality {

  import opened SummarySchema
  import opened Text

  datatype OutputClaim = OutputClaim(field: ClaimField, text: string)

  datatype ExpectedFact = ExpectedFact(field: ClaimField, terms: seq<string>)

  predicate ClaimMatchesFact(claim: OutputClaim, fact: ExpectedFact) {
    && claim.field == fact.field
    && forall term :: term in fact.terms ==> Includes(claim.text, term)
  }

  // ---------------------------------------------------------------- matchings

  /** Fact index to the index of the claim that owns it. */
  type Matching = map<nat, nat>

  ghost predicate Supports(claims: seq<OutputClaim>, facts: seq<ExpectedFact>, c: nat, f: nat) {
    c < |claims| && f < |facts| && ClaimMatchesFact(claims[c], facts[f])
  }

  ghost predicate Edges(claims: seq<OutputClaim>, facts: seq<ExpectedFact>, m: Matching) {
    forall f :: f in m ==> Supports(claims, facts, m[f], f)
  }

  /** No claim owns two facts, facts in `except` aside. */
  ghost predicate OneToOne(m: Matching, except: set<nat>) {
    forall f, g :: f in m && g in m && f !in except && g !in except && m[f] == m[g] ==> f == g
  }

  ghost predicate IsMatching(claims: seq<OutputClaim>, facts: seq<ExpectedFact>, m: Matching) {
    Edges(claims, facts, m) && OneToOne(m, {})
  }

  ghost predicate OwnersBelow(m: Matching, limit: nat) {
    forall f :: f in m ==> m[f] < limit
  }

  /** `size` is attained by a matching, and no matching is larger. */
  ghost predicate IsMaximum(claims: seq<OutputClaim>, facts: seq<ExpectedFact>, size: nat) {
    && (exists m: Matching :: IsMatching(claims, facts, m) && |m| == size)
    && (forall m: Matching :: IsMatching(claims, facts, m) ==> |m| <= size)
  }

  ghost function Indexes(n: nat): (s: set<nat>)
    ensures forall i: nat :: i in s <==> i < n
  {
    if n == 0 then {} else Indexes(n - 1) + {n - 1}
  }

  /** The same bound when only the first `limit` claims may own facts. */
  ghost predicate BoundsPrefix(
    claims: seq<OutputClaim>, facts: seq<ExpectedFact>, limit: nat, size: nat)
  {
    forall m: Matching :: IsMatching(claims, facts, m) && OwnersBelow(m, limit) ==> |m| <= size
  }

  /** Claims owning a fact outside `except`. */
  ghost function OwnersOutside(m: Matching, except: set<nat>): set<nat> {
    set f | f in m && f !in except :: m[f]
  }

  /** What a failed search leaves behind: from `c`, every fact that alternating
      paths can reach is in `seen` and already owned. */
  ghost predicate Exhausted(
    claims: seq<OutputClaim>, facts: seq<ExpectedFact>, m: Matching, c: nat, from: set<nat>, seen: set<nat>)
  {
    && (forall f :: Supports(claims, facts, c, f) ==> f in seen)
    && (forall f :: f in seen && f !in from ==>
          f in m && forall g :: Supports(claims, facts, m[f], g) ==> g in seen)
  }

  /** Adding one claim raises the maximum by at most one. */
  lemma OneMoreClaim(claims: seq<OutputClaim>, facts: seq<ExpectedFact>, limit: nat, size: nat)
    requires BoundsPrefix(claims, facts, limit, size)
    ensures BoundsPrefix(claims, facts, limit + 1, size + 1)
  {
    forall m: Matching | IsMatching(claims, facts, m) && OwnersBelow(m, limit + 1)
      ensures |m| <= size + 1
    {
      if f :| f in m && m[f] == limit {
        var rest := m - {f};
        assert m.Keys == rest.Keys + {f};
        assert IsMatching(claims, facts, rest) && OwnersBelow(rest, limit);
        assert |m.Keys| == |rest.Keys| + 1;
      } else {
        assert OwnersBelow(m, limit);
      }
    }
  }

  /** A failed search from claim `limit` proves the maximum did not grow: any
      rival matching can be rerouted through the exhausted facts without using
      that claim and without losing an edge. */
  lemma FailedSearchIsFinal(
    claims: seq<OutputClaim>, facts: seq<ExpectedFact>, m: Matching, limit: nat, seen: set<nat>)
    requires IsMatching(claims, facts, m) && OwnersBelow(m, limit)
    requires BoundsPrefix(claims, facts, limit, |m|)
    requires Exhausted(claims, facts, m, limit, {}, seen)
    ensures BoundsPrefix(claims, facts, limit + 1, |m|)
  {
    forall rival: Matching | IsMatching(claims, facts, rival) && OwnersBelow(rival, limit + 1)
      ensures |rival| <= |m|
    {
      var rerouted := Reroute(claims, facts, m, limit, seen, rival);
      SubsetSize(rival.Keys, rerouted.Keys);
    }
  }

  lemma Reroute(
    claims: seq<OutputClaim>, facts: seq<ExpectedFact>, m: Matching, limit: nat, seen: set<nat>, rival: Matching)
    returns (rerouted: Matching)
    requires IsMatching(claims, facts, m) && OwnersBelow(m, limit)
    requires Exhausted(claims, facts, m, limit, {}, seen)
    requires IsMatching(claims, facts, rival) && OwnersBelow(rival, limit + 1)
    ensures IsMatching(claims, facts, rerouted) && OwnersBelow(rerouted, limit)
    ensures rival.Keys <= rerouted.Keys
  {
    rerouted := map f | f in rival.Keys + seen :: if f in seen then m[f] else rival[f];
    forall f, g | f in seen && g in rival && rival[g] == m[f]
      ensures g in seen
    {
      assert Supports(claims, facts, m[f], g);
    }
  }

  lemma SubsetSize<T>(small: set<T>, large: set<T>)
    requires small <= large
    ensures |small| <= |large|
  {
    assert large == small + (large - small);
  }

  // ----------------------------------------------------------------- the search

  /** `claim` got a fact: one more is owned, the facts in `from` and their owners are
      as before, and outside `from` only `claim` is a new owner. */
  ghost predicate Gained(before: Matching, after: Matching, from: set<nat>, claim: nat) {
    && OneToOne(after, from) && before.Keys <= after.Keys && |after| == |before| + 1
    && (forall f :: f in from ==> (f in after <==> f in before) && (f in after ==> after[f] == before[f]))
    && OwnersOutside(after, from) <= OwnersOutside(before, from) + {claim}
  }

  lemma OwnersStayBelow(before: Matching, after: Matching, claim: nat)
    requires OwnersBelow(before, claim) && Gained(before, after, {}, claim)
    ensures OwnersBelow(after, claim + 1)
  {
    forall f | f in after ensures after[f] < claim + 1 {
      assert after[f] in OwnersOutside(after, {});
    }
  }

  /** Handing `fact` to `claim` once its former owner, if any, has moved to a fact not
      in `seen`. */
  lemma Settle(
    before: Matching, moved: Matching, fact: nat, claim: nat, from: set<nat>, seen: set<nat>)
    requires from <= seen && fact !in seen
    requires OneToOne(before, from) && claim !in OwnersOutside(before, from)
    requires if fact in before then Gained(before, moved, seen + {fact}, before[fact]) else moved == before
    ensures Gained(before, moved[fact := claim], from, claim)
  {
    SettledOwners(before, moved, fact, claim, from, seen);
  }

  lemma SettledOwners(
    before: Matching, moved: Matching, fact: nat, claim: nat, from: set<nat>, seen: set<nat>)
    requires from <= seen && fact !in seen
    requires OneToOne(before, from) && claim !in OwnersOutside(before, from)
    requires if fact in before then Gained(before, moved, seen + {fact}, before[fact]) else moved == before
    ensures OneToOne(moved[fact := claim], from)
    ensures OwnersOutside(moved[fact := claim], from) <= OwnersOutside(before, from) + {claim}
  {
    var after := moved[fact := claim];
    if fact in before { assert before[fact] in OwnersOutside(before, seen); }
    forall f | f in after && f !in from && f != fact
      ensures after[f] in OwnersOutside(before, from)
      ensures f !in seen ==> after[f] in OwnersOutside(before, seen)
    {
      if f !in seen {
        assert after[f] in OwnersOutside(moved, seen + {fact});
        var g :| g in before && g !in seen && before[g] == after[f];
        assert g !in from;
      }
    }
  }

  /** The owner of a fact just seen owns no other fact outside the seen ones. */
  lemma MayDisplace(m: Matching, fact: nat, seen: set<nat>)
    requires OneToOne(m, seen) && fact in m && fact !in seen
    ensures OneToOne(m, seen + {fact}) && m[fact] !in OwnersOutside(m, seen + {fact})
  {
  }

  class FactMatcher {
    const claims: seq<OutputClaim>
    const facts: seq<ExpectedFact>
    var factOwners: map<nat, nat>
    var seenFacts: set<nat>

    constructor (claims: seq<OutputClaim>, facts: seq<ExpectedFact>)
      ensures this.claims == claims && this.facts == facts
      ensures factOwners == map[]
    {
      this.claims := claims;
      this.facts := facts;
      factOwners := map[];
      seenFacts := {};
    }

    /** Looks for a fact for `claim`, displacing owners that can move elsewhere.
        Success adds exactly one owned fact and touches no fact seen before the
        call; failure changes no owner and leaves the reachable facts exhausted. */
    method Assign(claim: nat) returns (found: bool)
      requires Edges(claims, facts, factOwners)
      requires OneToOne(factOwners, seenFacts)
      requires claim !in OwnersOutside(factOwners, seenFacts)
      modifies this
      ensures Edges(claims, facts, factOwners)
      ensures old(seenFacts) <= seenFacts
      ensures !found ==>
        && factOwners == old(factOwners)
        && Exhausted(claims, facts, factOwners, claim, old(seenFacts), seenFacts)
      ensures found ==> claim < |claims| && Gained(old(factOwners), factOwners, old(seenFacts), claim)
      decreases Indexes(|facts|) - seenFacts
    {
      if claim >= |claims| { return false; }
      for factIndex := 0 to |facts|
        invariant old(seenFacts) <= seenFacts
        invariant factOwners == old(factOwners)
        invariant forall f :: 0 <= f < factIndex && Supports(claims, facts, claim, f) ==> f in seenFacts
        invariant forall f :: f in seenFacts && f !in old(seenFacts) ==>
          f in factOwners && forall g :: Supports(claims, facts, factOwners[f], g) ==> g in seenFacts
      {
        if factIndex in seenFacts || !ClaimMatchesFact(claims[claim], facts[factIndex]) {
          continue;
        }
        ghost var before := seenFacts;
        assert factIndex in Indexes(|facts|) - old(seenFacts);
        seenFacts := seenFacts + {factIndex};
        var moved := factIndex !in factOwners;
        if !moved {
          MayDisplace(factOwners, factIndex, before);
          moved := Assign(factOwners[factIndex]);
        }
        if moved {
          ghost var displaced := factOwners;
          factOwners := factOwners[factIndex := claim];
          Settle(old(factOwners), displaced, factIndex, claim, old(seenFacts), before);
          return true;
        }
      }
      return false;
    }

    /** The scoring loop: every claim gets one search with a fresh seen set. */
    method MatchedFacts() returns (matched: nat)
      requires factOwners == map[]
      modifies this
      ensures IsMatching(claims, facts, factOwners) && |factOwners| == matched
      ensures IsMaximum(claims, facts, matched)
    {
      matched := 0;
      for claimIndex := 0 to |claims|
        invariant IsMatching(claims, facts, factOwners)
        invariant OwnersBelow(factOwners, claimIndex)
        invariant |factOwners| == matched
        invariant BoundsPrefix(claims, facts, claimIndex, matched)
      {
        ghost var before := factOwners;
        OneMoreClaim(claims, facts, claimIndex, matched);
        seenFacts := {};
        var found := Assign(claimIndex);
        if found {
          matched := matched + 1;
          OwnersStayBelow(before, factOwners, claimIndex);
        } else {
          FailedSearchIsFinal(claims, facts, before, claimIndex, seenFacts);
        }
      }
      assert forall m: Matching :: IsMatching(claims, facts, m) ==> OwnersBelow(m, |claims|);
    }
  }

  // ------------------------------------------------------------- what is scored

  /** Distinct claims in order of first occurrence. */
  function Unique(claims: seq<OutputClaim>): (u: seq<OutputClaim>)
    ensures forall c :: c in u <==> c in claims
    ensures forall i, j :: 0 <= i < j < |u| ==> u[i] != u[j]
    ensures |u| <= |claims|
  {
    if claims == [] then []
    else
      var last := claims[|claims| - 1];
      var u := Unique(claims[..|claims| - 1]);
      assert claims == claims[..|claims| - 1] + [last];
      if last in u then u else u + [last]
  }

  /** Neither more facts than were expected nor more claims than were made. */
  lemma {:induction false} SizeBounds(claims: seq<OutputClaim>, facts: seq<ExpectedFact>, size: nat)
    requires IsMaximum(claims, facts, size)
    ensures size <= |claims| && size <= |facts|
  {
    var m: Matching :| IsMatching(claims, facts, m) && |m| == size;
    SubsetSize(m.Keys, Indexes(|facts|));
    IndexesSize(|facts|);
    PrefixBound(claims, facts, |claims|);
    assert OwnersBelow(m, |claims|);
  }

  lemma {:induction false} IndexesSize(n: nat)
    ensures |Indexes(n)| == n
  {
    if n > 0 { IndexesSize(n - 1); }
  }

  lemma {:induction false} PrefixBound(claims: seq<OutputClaim>, facts: seq<ExpectedFact>, limit: nat)
    ensures BoundsPrefix(claims, facts, limit, limit)
  {
    if limit == 0 {
      forall m: Matching | OwnersBelow(m, 0) ensures m == map[] {
        if f :| f in m { assert false; }
      }
    } else {
      PrefixBound(claims, facts, limit - 1);
      OneMoreClaim(claims, facts, limit - 1, limit - 1);
    }
  }

  function IndexOf<T(==)>(s: seq<T>, x: T): (i: nat)
    requires x in s
    ensures i < |s| && s[i] == x
  {
    if s[0] == x then 0 else 1 + IndexOf(s[1..], x)
  }

  lemma Relocate(
    claims: seq<OutputClaim>, others: seq<OutputClaim>, facts: seq<ExpectedFact>, m: Matching)
    returns (moved: Matching)
    requires forall c :: c in claims ==> c in others
    requires forall i, j :: 0 <= i < j < |claims| ==> claims[i] != claims[j]
    requires IsMatching(claims, facts, m)
    ensures IsMatching(others, facts, moved) && |moved| == |m|
  {
    moved := map f | f in m :: IndexOf(others, claims[m[f]]);
    assert moved.Keys == m.Keys;
    assert |moved| == |moved.Keys| == |m.Keys|;
  }

  /** The score is a property of the set of claims: neither their order nor
      repeating one of them changes how many facts are found. */
  lemma ScoreDependsOnClaimSetOnly(
    claims: seq<OutputClaim>, others: seq<OutputClaim>, facts: seq<ExpectedFact>, size: nat, otherSize: nat)
    requires forall c :: c in claims <==> c in others
    requires IsMaximum(Unique(claims), facts, size)
    requires IsMaximum(Unique(others), facts, otherSize)
    ensures size == otherSize
  {
    var m: Matching :| IsMatching(Unique(claims), facts, m) && |m| == size;
    var moved := Relocate(Unique(claims), Unique(others), facts, m);
    var n: Matching :| IsMatching(Unique(others), facts, n) && |n| == otherSize;
    var back := Relocate(Unique(others), Unique(claims), facts, n);
  }

  /** Making more claims never loses a fact. */
  lemma MoreClaimsNeverScoreLess(
    claims: seq<OutputClaim>, more: seq<OutputClaim>, facts: seq<ExpectedFact>, size: nat, moreSize: nat)
    requires forall c :: c in claims ==> c in more
    requires IsMaximum(Unique(claims), facts, size)
    requires IsMaximum(Unique(more), facts, moreSize)
    ensures size <= moreSize
  {
    var m: Matching :| IsMatching(Unique(claims), facts, m) && |m| == size;
    var moved := Relocate(Unique(claims), Unique(more), facts, m);
  }

  datatype Thresholds = Thresholds(recall: real, precision: real, forbidden: nat)

  datatype Measurement = Measurement(
    found: nat, expected: nat, recall: real,
    outputClaims: nat, unlisted: nat, precision: real,
    forbiddenHits: nat, pass: bool)

  function Rate(part: nat, whole: nat): (r: real)
    requires part <= whole && whole > 0
    ensures 0.0 <= r <= 1.0
    ensures r * whole as real == part as real
  {
    part as real / whole as real
  }

  // ------------------------------------------------------------------- one case

  /** What a summary says in one field. */
  datatype FieldTexts = FieldTexts(field: ClaimField, texts: seq<string>)

  function ClaimsOfField(field: ClaimField, texts: seq<string>, normalized: string -> string): seq<OutputClaim> {
    if texts == [] then []
    else
      var last := normalized(texts[|texts| - 1]);
      ClaimsOfField(field, texts[..|texts| - 1], normalized) + if last == "" then [] else [OutputClaim(field, last)]
  }

  /** All claims of a summary, field after field, blank ones left out. */
  function OutputClaims(output: seq<FieldTexts>, normalized: string -> string): seq<OutputClaim> {
    if output == [] then []
    else
      var last := output[|output| - 1];
      OutputClaims(output[..|output| - 1], normalized) + ClaimsOfField(last.field, last.texts, normalized)
  }

  function JoinLines(lines: seq<string>): string {
    if lines == [] then "" else if |lines| == 1 then lines[0]
    else JoinLines(lines[..|lines| - 1]) + "\n" + lines[|lines| - 1]
  }

  function AllClaimText(output: seq<FieldTexts>): string {
    JoinLines(seq(|output|, k requires 0 <= k < |output| => JoinLines(output[k].texts)))
  }

  function NormalizedFacts(facts: seq<ExpectedFact>, normalized: string -> string): seq<ExpectedFact> {
    seq(|facts|, k requires 0 <= k < |facts| =>
      ExpectedFact(facts[k].field,
                   seq(|facts[k].terms|, j requires 0 <= j < |facts[k].terms| => normalized(facts[k].terms[j]))))
  }

  /** Which forbidden facts, by place, are anywhere in the output. */
  function Forbidden(output: string, forbidden: seq<string>, normalized: string -> string, n: nat): set<nat>
    requires n <= |forbidden|
  {
    set k: nat | k < n && Includes(output, normalized(forbidden[k]))
  }

  method CountForbidden(output: string, forbidden: seq<string>, normalized: string -> string) returns (hits: nat)
    ensures hits == |Forbidden(output, forbidden, normalized, |forbidden|)|
  {
    hits := 0;
    for n := 0 to |forbidden|
      invariant hits == |Forbidden(output, forbidden, normalized, n)|
    {
      var found := Includes(output, normalized(forbidden[n]));
      assert Forbidden(output, forbidden, normalized, n + 1)
        == Forbidden(output, forbidden, normalized, n) + if found then {n} else {};
      if found { hits := hits + 1; }
    }
  }

  method MeasureCase(
    output: seq<FieldTexts>, expected: seq<ExpectedFact>, forbidden: seq<string>,
    normalized: string -> string, thresholds: Thresholds)
    returns (r: Measurement)
    requires expected != []
    ensures
      var claims, facts := OutputClaims(output, normalized), NormalizedFacts(expected, normalized);
      && IsMaximum(Unique(claims), facts, r.found)
      && r.expected == |expected| && r.outputClaims == |claims| == r.found + r.unlisted
      && r.found <= |expected| && r.recall == Rate(r.found, |expected|)
      && r.precision == (if claims == [] then 1.0 else Rate(r.found, |claims|))
    ensures r.forbiddenHits == |Forbidden(normalized(AllClaimText(output)), forbidden, normalized, |forbidden|)|
    ensures r.recall <= 1.0 && r.precision <= 1.0
    ensures r.pass <==>
      r.recall >= thresholds.recall && r.precision >= thresholds.precision && r.forbiddenHits <= thresholds.forbidden
  {
    var claims, facts := OutputClaims(output, normalized), NormalizedFacts(expected, normalized);
    var unique := Unique(claims);
    var matcher := new FactMatcher(unique, facts);
    var found := matcher.MatchedFacts();
    SizeBounds(unique, facts, found);
    var recall := Rate(found, |facts|);
    var precision := if |claims| == 0 then 1.0 else Rate(found, |claims|);
    var forbiddenHits := CountForbidden(normalized(AllClaimText(output)), forbidden, normalized);
    r := Measurement(
      found, |facts|, recall, |claims|, |claims| - found, precision, forbiddenHits,
      recall >= thresholds.recall && precision >= thresholds.precision && forbiddenHits <= thresholds.forbidden);
  }
}

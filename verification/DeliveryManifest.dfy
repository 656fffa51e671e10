/** When an audio part counts as delivered (src/jobs/pipeline.ts:678-766): the manifest
    test on counts, minimum and maximum, and what it proves about the outbox rows. */
module DeliveryManifest {

  import opened Common
  import opened Text

  type PartId = nat

  datatype RowState = Pending | Sending | Sent | Dead | Failed

  /** `audio:<part>` or `audio:<part>:split<suffix>`. */
  datatype DeliveryId = Direct(part: PartId) | Split(part: PartId, suffix: string)

  /** `ours` says that the row is an audio row of the part's own session. */
  datatype Row = Row(id: DeliveryId, state: RowState, updatedAt: int, ours: bool)

  // --------------------------------------------------------------- canonical suffixes

  predicate IsDigits(s: string) { s != [] && forall k :: 0 <= k < |s| ==> '0' <= s[k] <= '9' }

  function ValueOf(s: string): nat
    requires forall k :: 0 <= k < |s| ==> '0' <= s[k] <= '9'
  {
    if s == [] then 0 else ValueOf(s[..|s| - 1]) * 10 + (s[|s| - 1] as int - '0' as int)
  }

  /** The integer a suffix spells, if it is that integer's own numeral. */
  function IndexOf(suffix: string): Option<nat> {
    if IsDigits(suffix) && Decimal(ValueOf(suffix)) == suffix then Some(ValueOf(suffix)) else None
  }

  lemma {:induction false} NumeralIsCanonical(n: nat)
    ensures IndexOf(Decimal(n)) == Some(n)
  {
    NumeralValue(n);
  }

  lemma {:induction false} NumeralValue(n: nat)
    ensures IsDigits(Decimal(n)) && ValueOf(Decimal(n)) == n
  {
    if n >= 10 {
      NumeralValue(n / 10);
      assert Decimal(n)[..|Decimal(n)| - 1] == Decimal(n / 10);
    } else {
      assert Decimal(n) == [Digit(n)] && Decimal(n)[..0] == [];
    }
  }

  // --------------------------------------------------------------------- the counts

  /** What the query looks at in a row: `index` is the canonical split index, if any. */
  datatype Tally = Tally(direct: bool, index: Option<nat>, confirmed: bool, updatedAt: int)

  function TallyOf(row: Row): Tally {
    Tally(row.id.Direct?, if row.id.Split? then IndexOf(row.id.suffix) else None,
          row.ours && row.state == Sent, row.updatedAt)
  }

  function Tallies(rows: seq<Row>): seq<Tally> { seq(|rows|, k requires 0 <= k < |rows| => TallyOf(rows[k])) }

  /** What the query computes over a part's rows. */
  datatype Manifest = Manifest(
    total: nat, confirmed: nat, direct: nat, split: nat,
    first: Option<nat>, last: Option<nat>, distinct: set<nat>, deliveredAt: Option<int>)

  const NO_ROWS := Manifest(0, 0, 0, 0, None, None, {}, None)

  function Least(a: Option<nat>, b: Option<nat>): Option<nat> {
    if a.None? then b else if b.None? || a.value <= b.value then a else b
  }

  function Most(a: Option<nat>, b: Option<nat>): Option<nat> {
    if a.None? then b else if b.None? || a.value >= b.value then a else b
  }

  function Counted(m: Manifest, t: Tally): Manifest {
    Manifest(
      m.total + 1,
      m.confirmed + (if t.confirmed then 1 else 0),
      m.direct + (if t.direct then 1 else 0),
      m.split + (if t.index.Some? then 1 else 0),
      Least(m.first, t.index), Most(m.last, t.index),
      if t.index.Some? then m.distinct + {t.index.value} else m.distinct,
      Some(if m.deliveredAt.Some? then Max(m.deliveredAt.value, t.updatedAt) else t.updatedAt))
  }

  function ManifestOf(tallies: seq<Tally>): Manifest {
    if tallies == [] then NO_ROWS
    else Counted(ManifestOf(tallies[..|tallies| - 1]), tallies[|tallies| - 1])
  }

  /** The decision taken on the counts alone: when the part was delivered, if it was. */
  function DeliveredAt(m: Manifest): Option<int> {
    var directManifest := m.total == 1 && m.direct == 1;
    var splitManifest :=
      && m.total > 0 && m.direct == 0 && m.split == m.total
      && m.first == Some(0) && m.last == Some(m.total - 1) && |m.distinct| == m.total;
    if m.total > 0 && m.confirmed == m.total && m.deliveredAt.Some? && (directManifest || splitManifest)
    then m.deliveredAt else None
  }

  // -------------------------------------------------------------- what they establish

  ghost predicate AllConfirmed(ts: seq<Tally>) { forall k :: 0 <= k < |ts| ==> ts[k].confirmed }

  ghost predicate AllSplit(ts: seq<Tally>) { forall k :: 0 <= k < |ts| ==> ts[k].index.Some? && !ts[k].direct }

  ghost predicate Holds(ts: seq<Tally>, i: nat) { exists k :: 0 <= k < |ts| && ts[k].index == Some(i) }

  /** A whole manifest: one unsplit row, or each of the splits 0, 1, ..., n - 1 once; all
      of it sent. */
  ghost predicate Complete(ts: seq<Tally>) {
    && ts != [] && AllConfirmed(ts)
    && ((|ts| == 1 && ts[0].direct) || (AllSplit(ts) && forall i: nat :: i < |ts| ==> Holds(ts, i)))
  }

  lemma HoldsAppend(ts: seq<Tally>, t: Tally, i: nat)
    ensures Holds(ts + [t], i) <==> Holds(ts, i) || t.index == Some(i)
  {
    if Holds(ts, i) {
      var k :| 0 <= k < |ts| && ts[k].index == Some(i);
      assert (ts + [t])[k].index == Some(i);
    }
    if t.index == Some(i) { assert (ts + [t])[|ts|].index == Some(i); }
  }

  /** Rows that cannot be both unsplit and numbered, as the two forms of identifier are. */
  ghost predicate Apart(ts: seq<Tally>) { forall k :: 0 <= k < |ts| ==> !(ts[k].direct && ts[k].index.Some?) }

  lemma {:induction false} CountFacts(ts: seq<Tally>)
    requires Apart(ts)
    ensures var m := ManifestOf(ts);
      && m.total == |ts| && m.confirmed <= m.total && m.direct + m.split <= m.total
      && (m.confirmed == m.total <==> AllConfirmed(ts)) && (m.split == m.total <==> AllSplit(ts))
      && (m.deliveredAt.Some? <==> ts != [])
  {
    if ts != [] { CountFacts(ts[..|ts| - 1]); }
  }

  lemma {:induction false} DistinctFacts(ts: seq<Tally>)
    ensures var m := ManifestOf(ts);
      && |m.distinct| <= m.split && (forall i :: i in m.distinct <==> Holds(ts, i))
      && (m.first.Some? <==> m.distinct != {}) && (m.last.Some? <==> m.distinct != {})
      && (m.first.Some? ==> m.first.value in m.distinct && forall x :: x in m.distinct ==> m.first.value <= x)
      && (m.last.Some? ==> m.last.value in m.distinct && forall x :: x in m.distinct ==> x <= m.last.value)
  {
    if ts != [] {
      var front, last := ts[..|ts| - 1], ts[|ts| - 1];
      DistinctFacts(front);
      assert ts == front + [last];
      forall i: nat ensures Holds(ts, i) <==> Holds(front, i) || last.index == Some(i) { HoldsAppend(front, last, i); }
    }
  }

  function Below(n: nat): set<nat> { if n == 0 then {} else Below(n - 1) + {n - 1} }

  lemma {:induction false} BelowFacts(n: nat)
    ensures (forall x: nat :: x in Below(n) <==> x < n) && |Below(n)| == n
  {
    if n > 0 { BelowFacts(n - 1); }
  }

  /** `n` numbers below `n` are all of them. */
  lemma FullRange(s: set<nat>, n: nat)
    requires forall x :: x in s ==> x < n
    ensures |s| == n <==> s == Below(n)
  {
    BelowFacts(n);
    var b := Below(n);
    assert s <= b && b == s + (b - s);
    assert |b| == |s| + |b - s|;
  }

  lemma AcceptedIsComplete(ts: seq<Tally>)
    requires Apart(ts) && DeliveredAt(ManifestOf(ts)).Some?
    ensures Complete(ts)
  {
    var m := ManifestOf(ts);
    CountFacts(ts);
    if m.direct == 1 && m.total == 1 {
      assert m == Counted(ManifestOf(ts[..0]), ts[0]);
    } else {
      DistinctFacts(ts);
      FullRange(m.distinct, |ts|);
      BelowFacts(|ts|);
    }
  }

  lemma CompleteIsAccepted(ts: seq<Tally>)
    requires Apart(ts) && Complete(ts)
    ensures DeliveredAt(ManifestOf(ts)).Some?
  {
    var m := ManifestOf(ts);
    CountFacts(ts);
    if |ts| == 1 && ts[0].direct {
      assert m == Counted(ManifestOf(ts[..0]), ts[0]);
    } else {
      DistinctFacts(ts);
      NothingElse(m.distinct, |ts|);
      assert 0 in m.distinct && |ts| - 1 in m.distinct;
      BelowFacts(|ts|);
    }
  }

  /** The counts accept exactly the complete manifests. */
  lemma AcceptedIffComplete(ts: seq<Tally>)
    requires Apart(ts)
    ensures DeliveredAt(ManifestOf(ts)).Some? <==> Complete(ts)
  {
    if DeliveredAt(ManifestOf(ts)).Some? { AcceptedIsComplete(ts); }
    if Complete(ts) { CompleteIsAccepted(ts); }
  }

  /** At most `n` numbers with 0, ..., n - 1 among them are nothing else. */
  lemma NothingElse(s: set<nat>, n: nat)
    requires |s| <= n && forall i: nat :: i < n ==> i in s
    ensures s == Below(n) && |s| == n
  {
    BelowFacts(n);
    var b := Below(n);
    assert s == b + (s - b);
    assert |s| == |b| + |s - b|;
    assert s - b == {};
  }
}

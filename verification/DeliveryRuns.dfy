/** Publishing and confirming audio deliveries (src/jobs/delivery.ts:141-224,
    src/jobs/pipeline.ts:678-766, src/database/repository.ts:273-287): over every run, a
    part is marked delivered only when a whole published manifest was sent. */
module DeliveryRuns {

  import opened Common
  import opened Text
  import opened DeliveryManifest

  /** `first[p]` is the size of the split manifest published first for part `p`. */
  datatype Delivery = Delivery(rows: map<DeliveryId, Row>, first: map<PartId, nat>, deliveredAt: map<PartId, int>)

  const NOTHING := Delivery(map[], map[], map[])

  function Chunk(part: PartId, index: nat): DeliveryId { Split(part, Decimal(index)) }

  function NewRow(id: DeliveryId, now: int): Row { Row(id, Pending, now, true) }

  // ------------------------------------------------------------------------- steps

  function EnqueueDirect(d: Delivery, part: PartId, now: int): Delivery {
    if Direct(part) in d.rows then d else d.(rows := d.rows[Direct(part) := NewRow(Direct(part), now)])
  }

  /** The first `n` chunks of a split manifest: absent rows are inserted, finished ones
      left alone, and a live one makes the whole transaction fail. */
  function Inserted(rows: map<DeliveryId, Row>, part: PartId, n: nat, now: int): Option<map<DeliveryId, Row>> {
    if n == 0 then Some(rows)
    else
      var before := Inserted(rows, part, n - 1, now);
      var id := Chunk(part, n - 1);
      if before.None? then None
      else if id !in before.value then Some(before.value[id := NewRow(id, now)])
      else if before.value[id].state == Sent || before.value[id].state == Dead then before
      else None
  }

  function PublishSplits(d: Delivery, part: PartId, n: nat, now: int): Delivery {
    var inserted := Inserted(d.rows, part, n, now);
    if inserted.None? || n == 0 then d
    else d.(rows := inserted.value, first := if part in d.first then d.first else d.first[part := n])
  }

  function Update(d: Delivery, id: DeliveryId, state: RowState, now: int): Delivery {
    if id in d.rows then d.(rows := d.rows[id := d.rows[id].(state := state, updatedAt := now)]) else d
  }

  /** The delivery clock only moves forward. */
  function MarkDelivered(d: Delivery, part: PartId, at: int): Delivery {
    d.(deliveredAt := d.deliveredAt[part :=
      if part in d.deliveredAt && d.deliveredAt[part] >= at then d.deliveredAt[part] else at])
  }

  function MarkAudio(d: Delivery, part: PartId, rows: seq<Row>): Delivery {
    var at := DeliveredAt(ManifestOf(Tallies(rows)));
    if at.Some? then MarkDelivered(d, part, at.value) else d
  }

  // --------------------------------------------------------------------- invariant

  /** A part's split rows are 0, 1, ..., m - 1 for some `m` no smaller than its first
      manifest. */
  ghost predicate Contiguous(d: Delivery, part: PartId, m: nat) {
    && (forall i: nat :: i < m ==> Chunk(part, i) in d.rows)
    && (forall s :: Split(part, s) in d.rows ==> exists i: nat :: i < m && s == Decimal(i))
    && (if part in d.first then 1 <= d.first[part] <= m else m == 0)
  }

  ghost predicate Published(d: Delivery) {
    && (forall id :: id in d.rows ==> d.rows[id].id == id && d.rows[id].ours)
    && (forall p: PartId :: HasManifest(d, p))
  }

  ghost predicate HasManifest(d: Delivery, part: PartId) { exists m: nat :: Contiguous(d, part, m) }

  /** The rows of a part, each once, in any order. */
  ghost predicate Enumerates(rows: seq<Row>, d: Delivery, part: PartId) {
    && (forall k :: 0 <= k < |rows| ==>
          rows[k].id in d.rows && d.rows[rows[k].id] == rows[k] && rows[k].id.part == part)
    && (forall j, k :: 0 <= j < k < |rows| ==> rows[j].id != rows[k].id)
    && (forall id :: id in d.rows && id.part == part ==> d.rows[id] in rows)
  }

  lemma TalliesApart(rows: seq<Row>)
    ensures Apart(Tallies(rows))
  {
  }

  /** Marking a part delivered proves that all of one manifest was sent: its only row, or
      every chunk of the split manifest published first. */
  lemma MarkedMeansSent(d: Delivery, part: PartId, rows: seq<Row>)
    requires Published(d) && Enumerates(rows, d, part) && DeliveredAt(ManifestOf(Tallies(rows))).Some?
    ensures
      || (Direct(part) in d.rows && d.rows[Direct(part)].state == Sent && part !in d.first)
      || (part in d.first && Direct(part) !in d.rows
          && forall i: nat :: i < d.first[part] ==> Chunk(part, i) in d.rows && d.rows[Chunk(part, i)].state == Sent)
  {
    TalliesApart(rows);
    AcceptedIffComplete(Tallies(rows));
    assert HasManifest(d, part);
    var m: nat :| Contiguous(d, part, m);
    if |rows| == 1 && Tallies(rows)[0].direct {
      assert rows[0].id == Direct(part) && Tallies(rows)[0].confirmed;
      forall id | id in d.rows && id.part == part ensures id == Direct(part) {
        var k :| 0 <= k < |rows| && rows[k] == d.rows[id];
      }
      assert Chunk(part, 0) !in d.rows;
    } else {
      assert Tallies(rows)[0].index.Some? && !Tallies(rows)[0].direct;
      assert rows[0].id.Split?;
      forall id | id in d.rows && id.part == part ensures id.Split? && d.rows[id].state == Sent {
        var k :| 0 <= k < |rows| && rows[k] == d.rows[id];
        assert Tallies(rows)[k].confirmed && !Tallies(rows)[k].direct;
      }
    }
  }

  lemma InsertedKeeps(rows: map<DeliveryId, Row>, part: PartId, n: nat, now: int)
    requires Inserted(rows, part, n, now).Some?
    ensures
      var r := Inserted(rows, part, n, now).value;
      && (forall i: nat :: i < n ==> Chunk(part, i) in r)
      && (forall id :: id in rows ==> id in r && r[id] == rows[id])
      && (forall id :: id in r ==>
            id in rows || (exists i: nat :: i < n && id == Chunk(part, i) && r[id] == NewRow(id, now)))
  {
    if n > 0 {
      InsertedKeeps(rows, part, n - 1, now);
    }
  }

  lemma SplitsStay(d: Delivery, r: Delivery, part: PartId)
    requires HasManifest(d, part) && r.first == d.first
    requires forall s :: Split(part, s) in r.rows <==> Split(part, s) in d.rows
    ensures HasManifest(r, part)
  {
    var m: nat :| Contiguous(d, part, m);
    assert Contiguous(r, part, m);
  }

  lemma PublishKeepsPart(d: Delivery, part: PartId, n: nat, now: int)
    requires Published(d) && Inserted(d.rows, part, n, now).Some? && n > 0
    ensures HasManifest(PublishSplits(d, part, n, now), part)
  {
    var r := PublishSplits(d, part, n, now);
    InsertedKeeps(d.rows, part, n, now);
    assert HasManifest(d, part);
    var m: nat :| Contiguous(d, part, m);
    var m' := if m < n then n else m;
    forall s | Split(part, s) in r.rows ensures exists i: nat :: i < m' && s == Decimal(i) {
      if Split(part, s) in d.rows {
        var i: nat :| i < m && s == Decimal(i);
        assert i < m';
      } else {
        var i: nat :|
          i < n && Split(part, s) == Chunk(part, i) && r.rows[Split(part, s)] == NewRow(Split(part, s), now);
        assert i < m';
      }
    }
    assert Contiguous(r, part, m');
  }

  lemma PublishKeeps(d: Delivery, part: PartId, n: nat, now: int)
    requires Published(d)
    ensures Published(PublishSplits(d, part, n, now))
  {
    var r := PublishSplits(d, part, n, now);
    if r != d {
      InsertedKeeps(d.rows, part, n, now);
      forall id | id in r.rows ensures r.rows[id].id == id && r.rows[id].ours {
        if id !in d.rows { var i: nat :| i < n && id == Chunk(part, i) && r.rows[id] == NewRow(id, now); }
      }
      forall p: PartId ensures HasManifest(r, p) {
        assert HasManifest(d, p);
        if p == part { PublishKeepsPart(d, part, n, now); } else { OthersStay(d, r, part, p, n, now); }
      }
    }
  }

  lemma OthersStay(d: Delivery, r: Delivery, part: PartId, p: PartId, n: nat, now: int)
    requires p != part && HasManifest(d, p) && r == PublishSplits(d, part, n, now)
    requires Inserted(d.rows, part, n, now).Some? && n > 0
    ensures HasManifest(r, p)
  {
    InsertedKeeps(d.rows, part, n, now);
    var m: nat :| Contiguous(d, p, m);
    assert Contiguous(r, p, m);
  }

  // ------------------------------------------------------------------------ all runs

  datatype Event =
    | PublishDirect(part: PartId, now: int)
    | PublishSplit(part: PartId, chunks: nat, now: int)
    | Report(id: DeliveryId, state: RowState, now: int)
    | Mark(part: PartId, rows: seq<Row>)

  function Step(d: Delivery, e: Event): Delivery {
    match e
    case PublishDirect(part, now) => EnqueueDirect(d, part, now)
    case PublishSplit(part, n, now) => PublishSplits(d, part, n, now)
    case Report(id, state, now) => Update(d, id, state, now)
    case Mark(part, rows) => MarkAudio(d, part, rows)
  }

  lemma StepKeeps(d: Delivery, e: Event)
    requires Published(d)
    ensures Published(Step(d, e))
  {
    if e.PublishSplit? {
      PublishKeeps(d, e.part, e.chunks, e.now);
    } else {
      forall p: PartId ensures HasManifest(Step(d, e), p) {
        assert HasManifest(d, p);
        SplitsStay(d, Step(d, e), p);
      }
    }
  }

  function Run(events: seq<Event>): Delivery {
    if events == [] then NOTHING else Step(Run(events[..|events| - 1]), events[|events| - 1])
  }

  lemma {:induction false} EveryRunPublished(events: seq<Event>)
    ensures Published(Run(events))
  {
    if events == [] {
      forall p: PartId ensures HasManifest(NOTHING, p) { assert Contiguous(NOTHING, p, 0); }
    } else {
      EveryRunPublished(events[..|events| - 1]);
      StepKeeps(Run(events[..|events| - 1]), events[|events| - 1]);
    }
  }

  /** A part once marked stays marked, at no earlier time. */
  lemma {:induction false} ClockNeverMovesBack(events: seq<Event>, k: nat, part: PartId)
    requires k <= |events| && part in Run(events[..k]).deliveredAt
    ensures part in Run(events).deliveredAt && Run(events).deliveredAt[part] >= Run(events[..k]).deliveredAt[part]
  {
    if k < |events| {
      assert events[..|events| - 1][..k] == events[..k];
      ClockNeverMovesBack(events[..|events| - 1], k, part);
    } else {
      assert events[..k] == events;
    }
  }

  // -------------------------------------------------------------- and nothing is missed

  /** With no unsplit row beside them, sent splits are accepted, whatever was published
      in how many attempts; with one, they never are. */
  lemma SplitsAcceptedIff(d: Delivery, part: PartId, rows: seq<Row>)
    requires Published(d) && Enumerates(rows, d, part) && part in d.first
    ensures DeliveredAt(ManifestOf(Tallies(rows))).Some? <==>
      Direct(part) !in d.rows && forall id :: id in d.rows && id.part == part ==> d.rows[id].state == Sent
  {
    TalliesApart(rows);
    AcceptedIffComplete(Tallies(rows));
    if DeliveredAt(ManifestOf(Tallies(rows))).Some? {
      MarkedMeansSent(d, part, rows);
      forall id | id in d.rows && id.part == part ensures d.rows[id].state == Sent {
        var k :| 0 <= k < |rows| && rows[k] == d.rows[id];
        assert Tallies(rows)[k].confirmed;
      }
    }
    if Direct(part) !in d.rows && forall id :: id in d.rows && id.part == part ==> d.rows[id].state == Sent {
      SentIsComplete(d, part, rows);
    }
  }

  // ------------------------------------------------------------ a part never marked

  function Attempted(part: PartId, n: nat): seq<Event> { [PublishSplit(part, n, 0), PublishDirect(part, 1)] }

  function Reports(part: PartId, n: nat): seq<Event> {
    seq(n, i requires 0 <= i < n => Report(Chunk(part, i), Sent, 2))
  }

  /** A part published in `n` chunks and, after the upload limit was raised, whole; then all
      of it is sent. */
  function Resent(part: PartId, n: nat): seq<Event> {
    Attempted(part, n) + Reports(part, n) + [Report(Direct(part), Sent, 3)]
  }

  lemma RunAppend(events: seq<Event>, e: Event)
    ensures Run(events + [e]) == Step(Run(events), e)
  {
    assert (events + [e])[..|events|] == events;
  }

  lemma {:induction false} InsertedInto(rows: map<DeliveryId, Row>, part: PartId, n: nat, now: int)
    requires forall i: nat :: i < n ==> Chunk(part, i) !in rows
    ensures Inserted(rows, part, n, now).Some?
  {
    if n > 0 {
      InsertedInto(rows, part, n - 1, now);
      InsertedKeeps(rows, part, n - 1, now);
      if Chunk(part, n - 1) in Inserted(rows, part, n - 1, now).value {
        var i: nat :| i < n - 1 && Chunk(part, n - 1) == Chunk(part, i);
        NumeralIsCanonical(i);
        NumeralIsCanonical(n - 1);
      }
    }
  }

  /** Both forms of the part, and nothing else; the first `k` chunks are sent. */
  ghost predicate BothForms(d: Delivery, part: PartId, n: nat, k: nat) {
    && Direct(part) in d.rows && part in d.first
    && (forall id :: id in d.rows && id != Direct(part) ==> exists i: nat :: i < n && id == Chunk(part, i))
    && (forall i: nat :: i < n ==> Chunk(part, i) in d.rows)
    && (forall i: nat :: i < k ==> Chunk(part, i) in d.rows && d.rows[Chunk(part, i)].state == Sent)
  }

  lemma AttemptedBoth(part: PartId, n: nat)
    requires n > 0
    ensures BothForms(Run(Attempted(part, n)), part, n, 0)
  {
    InsertedInto(NOTHING.rows, part, n, 0);
    InsertedKeeps(NOTHING.rows, part, n, 0);
    RunAppend([], PublishSplit(part, n, 0));
    RunAppend([PublishSplit(part, n, 0)], PublishDirect(part, 1));
    assert [] + [PublishSplit(part, n, 0)] == [PublishSplit(part, n, 0)];
    assert Attempted(part, n) == [PublishSplit(part, n, 0)] + [PublishDirect(part, 1)];
  }

  lemma ChunkReported(d: Delivery, part: PartId, n: nat, k: nat)
    requires k < n && BothForms(d, part, n, k)
    ensures BothForms(Update(d, Chunk(part, k), Sent, 2), part, n, k + 1)
  {
    assert Chunk(part, k) in d.rows;
  }

  lemma ReportsGrow(part: PartId, n: nat, k: nat)
    ensures Attempted(part, n) + Reports(part, k + 1)
      == Attempted(part, n) + Reports(part, k) + [Report(Chunk(part, k), Sent, 2)]
  {
  }

  lemma {:induction false} ReportedBoth(part: PartId, n: nat, k: nat)
    requires 0 < n && k <= n
    ensures BothForms(Run(Attempted(part, n) + Reports(part, k)), part, n, k)
  {
    if k == 0 {
      AttemptedBoth(part, n);
      assert Attempted(part, n) + Reports(part, 0) == Attempted(part, n);
    } else {
      ReportedBoth(part, n, k - 1);
      ReportsGrow(part, n, k - 1);
      RunAppend(Attempted(part, n) + Reports(part, k - 1), Report(Chunk(part, k - 1), Sent, 2));
      ChunkReported(Run(Attempted(part, n) + Reports(part, k - 1)), part, n, k - 1);
    }
  }

  /** Everything published for it was sent, and it is never marked delivered. */
  lemma ResentIsNeverMarked(part: PartId, n: nat)
    requires n > 0
    ensures var d := Run(Resent(part, n));
      && Direct(part) in d.rows && (forall i: nat :: i < n ==> Chunk(part, i) in d.rows)
      && (forall id :: id in d.rows ==> d.rows[id].state == Sent)
      && (forall rows :: Enumerates(rows, d, part) ==> DeliveredAt(ManifestOf(Tallies(rows))).None?)
  {
    var d := Run(Resent(part, n));
    ReportedBoth(part, n, n);
    RunAppend(Attempted(part, n) + Reports(part, n), Report(Direct(part), Sent, 3));
    EveryRunPublished(Resent(part, n));
    forall rows | Enumerates(rows, d, part) ensures DeliveredAt(ManifestOf(Tallies(rows))).None? {
      SplitsAcceptedIff(d, part, rows);
    }
  }

  lemma SentIsComplete(d: Delivery, part: PartId, rows: seq<Row>)
    requires Published(d) && Enumerates(rows, d, part) && part in d.first && Direct(part) !in d.rows
    requires forall id :: id in d.rows && id.part == part ==> d.rows[id].state == Sent
    ensures Complete(Tallies(rows))
  {
    assert HasManifest(d, part);
    var m: nat :| Contiguous(d, part, m);
    var ts := Tallies(rows);
    assert d.rows[Chunk(part, 0)] in rows;
    forall k | 0 <= k < |ts| ensures ts[k].confirmed && !ts[k].direct && ts[k].index.Some? && ts[k].index.value < m {
      SplitRowIndexed(d, part, m, rows[k]);
    }
    RowsFillRange(d, part, m, rows);
  }

  lemma SplitRowIndexed(d: Delivery, part: PartId, m: nat, row: Row)
    requires Published(d) && Contiguous(d, part, m) && row.id in d.rows && d.rows[row.id] == row && row.id.part == part
    requires Direct(part) !in d.rows
    ensures row.id.Split? && TallyOf(row).index.Some? && TallyOf(row).index.value < m
    ensures row.id == Chunk(part, TallyOf(row).index.value)
  {
    assert row.id == if row.id.Direct? then Direct(part) else Split(part, row.id.suffix);
    var i: nat :| i < m && row.id.suffix == Decimal(i);
    NumeralIsCanonical(i);
  }

  /** As many rows as indexes, each index there: the rows are exactly 0, ..., |rows| - 1. */
  lemma RowsFillRange(d: Delivery, part: PartId, m: nat, rows: seq<Row>)
    requires Published(d) && Contiguous(d, part, m) && Enumerates(rows, d, part) && Direct(part) !in d.rows
    ensures |rows| <= m && forall i: nat :: i < |rows| ==> Holds(Tallies(rows), i)
  {
    var ts := Tallies(rows);
    forall k | 0 <= k < |rows|
      ensures ts[k].index.Some? && ts[k].index.value < m && rows[k].id == Chunk(part, ts[k].index.value)
    {
      SplitRowIndexed(d, part, m, rows[k]);
    }
    AtMost(ts, m);
    forall i: nat | i < m ensures Holds(ts, i) {
      assert d.rows[Chunk(part, i)] in rows;
      var k :| 0 <= k < |rows| && rows[k] == d.rows[Chunk(part, i)];
      NumeralIsCanonical(i);
      assert ts[k].index == Some(i);
    }
  }

  lemma AtMost(ts: seq<Tally>, m: nat)
    requires forall k :: 0 <= k < |ts| ==> ts[k].index.Some? && ts[k].index.value < m
    requires forall j, k :: 0 <= j < k < |ts| ==> ts[j].index != ts[k].index
    ensures |ts| <= m
  {
    NoMoreThan(seq(|ts|, k requires 0 <= k < |ts| && ts[k].index.Some? => ts[k].index.value), m);
  }
}

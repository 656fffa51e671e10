/** The outbox writes of audio delivery as they are made (src/jobs/delivery.ts:179-214,
    src/jobs/pipeline.ts:678-766, src/database/repository.ts:273-287). */
module DeliveryStoreClass {

  import opened Common
  import opened DeliveryManifest
  import opened DeliveryRuns

  class DeliveryStore {
    var outbox: map<DeliveryId, Row>
    var deliveredAt: map<PartId, int>
    ghost var first: map<PartId, nat>

    ghost function Value(): Delivery reads this { Delivery(outbox, first, deliveredAt) }

    constructor ()
      ensures Value() == NOTHING && Published(Value())
    {
      outbox, deliveredAt, first := map[], map[], map[];
      new;
      EveryRunPublished([]);
    }

    /** Publishes a split manifest in one transaction: all of it or, when a live row is in
        the way, nothing. */
    method PublishSplitManifest(part: PartId, chunks: nat, now: int) returns (published: bool)
      requires Published(Value())
      modifies this
      ensures Value() == PublishSplits(old(Value()), part, chunks, now) && Published(Value())
      ensures published <==> Inserted(old(outbox), part, chunks, now).Some?
    {
      PublishKeeps(Value(), part, chunks, now);
      var rows := outbox;
      for index := 0 to chunks
        invariant Inserted(outbox, part, index, now) == Some(rows)
      {
        var id := Chunk(part, index);
        if id !in rows {
          rows := rows[id := NewRow(id, now)];
          continue;
        }
        if rows[id].state == Sent || rows[id].state == Dead {
          continue;
        }
        ConflictStays(outbox, part, index + 1, chunks, now);
        return false;
      }
      if chunks > 0 && part !in first {
        first := first[part := chunks];
      }
      outbox := rows;
      published := true;
    }

    method EnqueueUnsplit(part: PartId, now: int) returns (enqueued: bool)
      requires Published(Value())
      modifies this
      ensures Value() == EnqueueDirect(old(Value()), part, now) && Published(Value())
      ensures enqueued <==> Direct(part) !in old(outbox)
    {
      StepKeeps(Value(), PublishDirect(part, now));
      enqueued := Direct(part) !in outbox;
      if enqueued {
        outbox := outbox[Direct(part) := NewRow(Direct(part), now)];
      }
    }

    /** Counts the part's rows and marks it delivered if they make a whole manifest. */
    method MarkAudioDelivered(part: PartId) returns (ghost rows: seq<Row>)
      requires Published(Value())
      modifies `deliveredAt
      ensures Enumerates(rows, old(Value()), part) && Value() == MarkAudio(old(Value()), part, rows)
      ensures Published(Value())
    {
      var m := NO_ROWS;
      var left := set id | id in outbox && id.part == part;
      rows := [];
      while left != {}
        invariant Value() == old(Value())
        invariant EnumeratesBut(rows, Value(), part, left) && m == ManifestOf(Tallies(rows))
        decreases |left|
      {
        var id: DeliveryId :| id in left;
        OneMoreTally(rows, outbox[id]);
        OneMoreRow(rows, Value(), part, left, id);
        m := Counted(m, TallyOf(outbox[id]));
        rows, left := rows + [outbox[id]], left - {id};
      }
      StepKeeps(Value(), Mark(part, rows));
      var at := DeliveredAt(m);
      if at.Some? {
        var later := part !in deliveredAt || deliveredAt[part] < at.value;
        deliveredAt := deliveredAt[part := if later then at.value else deliveredAt[part]];
      }
    }
  }

  lemma {:induction false} ConflictStays(rows: map<DeliveryId, Row>, part: PartId, k: nat, n: nat, now: int)
    requires k <= n && Inserted(rows, part, k, now).None?
    ensures Inserted(rows, part, n, now).None?
  {
    if k < n { ConflictStays(rows, part, k, n - 1, now); }
  }

  /** The rows of a part met so far, those under `left` still to come. */
  ghost predicate EnumeratesBut(rows: seq<Row>, d: Delivery, part: PartId, left: set<DeliveryId>) {
    && (forall k :: 0 <= k < |rows| ==>
          && rows[k].id in d.rows && d.rows[rows[k].id] == rows[k] && rows[k].id.part == part && rows[k].id !in left)
    && (forall j, k :: 0 <= j < k < |rows| ==> rows[j].id != rows[k].id)
    && (forall id :: id in d.rows && id.part == part ==> id in left || d.rows[id] in rows)
    && (forall id :: id in left ==> id in d.rows && id.part == part)
  }

  lemma OneMoreRow(rows: seq<Row>, d: Delivery, part: PartId, left: set<DeliveryId>, id: DeliveryId)
    requires EnumeratesBut(rows, d, part, left) && id in left && d.rows[id].id == id
    ensures EnumeratesBut(rows + [d.rows[id]], d, part, left - {id})
  {
  }

  lemma OneMoreTally(rows: seq<Row>, row: Row)
    ensures ManifestOf(Tallies(rows + [row])) == Counted(ManifestOf(Tallies(rows)), TallyOf(row))
  {
    assert Tallies(rows + [row]) == Tallies(rows) + [TallyOf(row)];
    assert (Tallies(rows) + [TallyOf(row)])[..|rows|] == Tallies(rows);
  }
}

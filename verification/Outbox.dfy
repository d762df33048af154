/** order_service/internal/outbox/outbox_repo.go: the outbox table as a queue, rows in commit order. */
module Outbox {
  import opened Prelude
  import opened Domain
  import opened Dispatch

  /** The row writeWithOutbox inserts for an event. */
  function NewRow(rowId: string, e: Event, rowTime: int): OutboxRow {
    OutboxRow(rowId, e.orderId, e.Type(), TopicFor(e.Type()), Encode(e), RowPending, rowTime)
  }

  /** Header, topic, payload and row agree on one event. */
  predicate RowOk(row: OutboxRow) {
    && row.orderId != "" && row.topic == TopicFor(row.eventType)
    && var d := Decode(row.topic, row.payload);
       d.Parsed? && d.event.Type() == row.eventType && d.event.orderId == row.orderId
       && row.payload == Encode(d.event)
  }

  function EventIn(row: OutboxRow): Event
    requires RowOk(row)
  {
    Decode(row.topic, row.payload).event
  }

  lemma NewRowOk(rowId: string, e: Event, rowTime: int)
    requires e.orderId != ""
    ensures RowOk(NewRow(rowId, e, rowTime)) && EventIn(NewRow(rowId, e, rowTime)) == e
  {
    DecodeEncode(e);
  }

  predicate DistinctIds(rows: seq<OutboxRow>) {
    forall i, j :: 0 <= i < j < |rows| ==> rows[i].id != rows[j].id
  }

  predicate FreshId(outbox: seq<OutboxRow>, id: string) {
    forall i :: 0 <= i < |outbox| ==> outbox[i].id != id
  }

  /** Equal up to the status column. */
  predicate SameRow(a: OutboxRow, b: OutboxRow) {
    a.(status := b.status) == b
  }

  function MarkRow(row: OutboxRow, id: string): OutboxRow {
    if row.id == id then row.(status := RowSent) else row
  }

  /** UPDATE ... SET status = 'SENT' WHERE id = ?. */
  function MarkSent(outbox: seq<OutboxRow>, id: string): (r: seq<OutboxRow>)
    ensures |r| == |outbox|
    ensures forall i :: 0 <= i < |r| ==> r[i] == MarkRow(outbox[i], id)
  {
    seq(|outbox|, i requires 0 <= i < |outbox| => MarkRow(outbox[i], id))
  }

  function PendingRows(outbox: seq<OutboxRow>): seq<OutboxRow> {
    if outbox == [] then []
    else
      var last := outbox[|outbox| - 1];
      PendingRows(outbox[..|outbox| - 1]) + if last.status == RowPending then [last] else []
  }

  predicate Sorted(rows: seq<OutboxRow>) {
    forall i, j :: 0 <= i < j < |rows| ==> rows[i].createdAt <= rows[j].createdAt
  }

  /** The batch holds oldest rows of the queue, none of them twice. */
  ghost predicate Oldest(queue: seq<OutboxRow>, batch: seq<OutboxRow>) {
    && DistinctIds(batch)
    && (forall b :: b in batch ==> b in queue)
    && (forall b, r :: b in batch && r in queue && r !in batch ==> b.createdAt <= r.createdAt)
  }

  /** SELECT ... WHERE status = 'PENDING' ORDER BY created_at ASC LIMIT limit; the order of ties is open. */
  ghost predicate IsFetch(outbox: seq<OutboxRow>, limit: nat, batch: seq<OutboxRow>) {
    && |batch| == Min(limit, |PendingRows(outbox)|)
    && Sorted(batch) && Oldest(PendingRows(outbox), batch)
  }

  function Insert(rows: seq<OutboxRow>, row: OutboxRow): seq<OutboxRow> {
    if rows == [] || rows[|rows| - 1].createdAt <= row.createdAt then rows + [row]
    else Insert(rows[..|rows| - 1], row) + [rows[|rows| - 1]]
  }

  function SortByTime(rows: seq<OutboxRow>): seq<OutboxRow> {
    if rows == [] then [] else Insert(SortByTime(rows[..|rows| - 1]), rows[|rows| - 1])
  }

  /** One answer of the query: ties in commit order. */
  function OldestPending(outbox: seq<OutboxRow>, limit: nat): seq<OutboxRow> {
    var rows := SortByTime(PendingRows(outbox));
    if limit <= |rows| then rows[..limit] else rows
  }

  lemma {:induction false} InsertMembers(rows: seq<OutboxRow>, row: OutboxRow)
    ensures |Insert(rows, row)| == |rows| + 1
    ensures forall r :: r in Insert(rows, row) <==> r == row || r in rows
  {
    if rows != [] && rows[|rows| - 1].createdAt > row.createdAt {
      var n := |rows| - 1;
      InsertMembers(rows[..n], row);
      assert rows == rows[..n] + [rows[n]];
    }
  }

  lemma {:induction false} InsertSorts(rows: seq<OutboxRow>, row: OutboxRow)
    requires Sorted(rows) && DistinctIds(rows) && FreshId(rows, row.id)
    ensures Sorted(Insert(rows, row)) && DistinctIds(Insert(rows, row))
  {
    if rows != [] && rows[|rows| - 1].createdAt > row.createdAt {
      var n := |rows| - 1;
      InsertSorts(rows[..n], row);
      InsertMembers(rows[..n], row);
      forall i | 0 <= i < |Insert(rows[..n], row)|
        ensures Insert(rows[..n], row)[i].createdAt <= rows[n].createdAt && Insert(rows[..n], row)[i].id != rows[n].id
      {
        assert Insert(rows[..n], row)[i] in Insert(rows[..n], row);
      }
    }
  }

  lemma {:induction false} SortSorts(rows: seq<OutboxRow>)
    requires DistinctIds(rows)
    ensures var sorted := SortByTime(rows);
            && Sorted(sorted) && DistinctIds(sorted) && |sorted| == |rows|
            && (forall r :: r in sorted <==> r in rows)
  {
    if rows != [] {
      var n := |rows| - 1;
      SortSorts(rows[..n]);
      forall i | 0 <= i < n ensures SortByTime(rows[..n])[i].id != rows[n].id {
        assert SortByTime(rows[..n])[i] in rows[..n];
      }
      InsertSorts(SortByTime(rows[..n]), rows[n]);
      InsertMembers(SortByTime(rows[..n]), rows[n]);
      assert rows == rows[..n] + [rows[n]];
    }
  }

  lemma {:induction false} PendingMember(outbox: seq<OutboxRow>, row: OutboxRow)
    ensures row in PendingRows(outbox) <==> row in outbox && row.status == RowPending
  {
    if outbox != [] {
      PendingMember(outbox[..|outbox| - 1], row);
    }
  }

  lemma {:induction false} QueueDistinct(outbox: seq<OutboxRow>)
    requires DistinctIds(outbox)
    ensures DistinctIds(PendingRows(outbox))
  {
    if outbox != [] {
      var n := |outbox| - 1;
      QueueDistinct(outbox[..n]);
      forall i | 0 <= i < |PendingRows(outbox[..n])| ensures PendingRows(outbox[..n])[i].id != outbox[n].id {
        PendingMember(outbox[..n], PendingRows(outbox[..n])[i]);
      }
    }
  }

  lemma FetchIsFetch(outbox: seq<OutboxRow>, limit: nat)
    requires DistinctIds(outbox)
    ensures IsFetch(outbox, limit, OldestPending(outbox, limit))
  {
    QueueDistinct(outbox);
    SortSorts(PendingRows(outbox));
    PrefixOldest(SortByTime(PendingRows(outbox)), Min(limit, |PendingRows(outbox)|));
  }

  lemma PrefixOldest(rows: seq<OutboxRow>, n: nat)
    requires n <= |rows| && Sorted(rows) && DistinctIds(rows)
    ensures Sorted(rows[..n]) && Oldest(rows, rows[..n])
  {
    forall b, r | b in rows[..n] && r in rows && r !in rows[..n] ensures b.createdAt <= r.createdAt {
      var i :| 0 <= i < n && rows[i] == b;
      var j :| 0 <= j < |rows| && rows[j] == r;
      assert j < n ==> rows[..n][j] == r;
    }
  }

  lemma FetchedRow(outbox: seq<OutboxRow>, limit: nat, batch: seq<OutboxRow>, b: OutboxRow)
    requires IsFetch(outbox, limit, batch) && b in batch
    ensures b in outbox && b.status == RowPending
  {
    PendingMember(outbox, b);
  }
}

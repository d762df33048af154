/** Invariants of the order service and the relay that hold in every reachable state, however the
    reads and writes of concurrent requests interleave. */
module OrderSide {
  import opened Prelude
  import opened Domain
  import opened Outbox
  import opened Protocol

  /** The number of rows of one order and type. */
  function CountRows(outbox: seq<OutboxRow>, o: OrderId, t: EventType): nat {
    if outbox == [] then 0
    else
      var last := outbox[|outbox| - 1];
      CountRows(outbox[..|outbox| - 1], o, t) + if last.orderId == o && last.eventType == t then 1 else 0
  }

  /** The type of an order's last committed row. */
  function LastType(outbox: seq<OutboxRow>, o: OrderId): Option<EventType> {
    if outbox == [] then None
    else
      var last := outbox[|outbox| - 1];
      if last.orderId == o then Some(last.eventType) else LastType(outbox[..|outbox| - 1], o)
  }

  /** Equal up to the status column. */
  predicate SameOrder(a: Order, b: Order) { a.(status := b.status) == b }

  function Creation(order: Order): Event { EventFor(order, StatusCreated, 0) }

  ghost predicate RowsOk(s: Sales) {
    && DistinctIds(s.outbox)
    && forall i :: 0 <= i < |s.outbox| ==>
         var row := s.outbox[i];
         && RowOk(row) && row.orderId in s.orders
         && (row.eventType == OrderCreated ==> EventIn(row) == Creation(s.orders[row.orderId]))
         && (row.eventType.Terminal() ==> s.orders[row.orderId].status != StatusCreated)
  }

  ghost predicate OrdersOk(s: Sales) {
    forall o :: o in s.orders ==>
      && s.orders[o].id == o && o != ""
      && CountRows(s.outbox, o, OrderCreated) == 1
      && LastType(s.outbox, o) == Some(EventOf(s.orders[o].status))
  }

  ghost predicate RequestsOk(s: Sales) {
    forall r :: r in s.requests ==>
      var q := s.requests[r];
      q.order.id in s.orders && SameOrder(q.order, s.orders[q.order.id]) && q.target != StatusCreated
  }

  /** A row of the table, whatever its status. */
  ghost predicate InTable(outbox: seq<OutboxRow>, row: OutboxRow) {
    exists i :: 0 <= i < |outbox| && SameRow(outbox[i], row)
  }

  ghost predicate Produced(outbox: seq<OutboxRow>, at: Partition, m: Message) {
    exists i :: 0 <= i < |outbox| && MessageOf(outbox[i]) == m && outbox[i].topic == at.topic
  }

  ghost predicate Published(logs: Logs, row: OutboxRow) {
    exists at: Partition, k: nat ::
      at in logs && at.topic == row.topic && k < |logs[at]| && logs[at][k] == MessageOf(row)
  }

  ghost predicate RelayOk(s: Sales, logs: Logs) {
    && (forall b :: b in s.relay.batch ==> InTable(s.outbox, b))
    && (forall i :: 0 <= i < |s.outbox| && s.outbox[i].status == RowSent ==> Published(logs, s.outbox[i]))
    && (s.relay.published ==> s.relay.batch != [] && Published(logs, s.relay.batch[0]))
  }

  ghost predicate LogsOk(s: Sales, logs: Logs) {
    forall at: Partition, k: nat :: at in logs && k < |logs[at]| ==> Produced(s.outbox, at, logs[at][k])
  }

  ghost predicate OrderInv(s: Sales, logs: Logs) {
    RowsOk(s) && OrdersOk(s) && RequestsOk(s) && RelayOk(s, logs) && LogsOk(s, logs)
  }

  // ----- The outbox under insertion and marking -----

  lemma Inserted(outbox: seq<OutboxRow>, row: OutboxRow)
    ensures var outbox' := outbox + [row];
            && (forall b :: InTable(outbox, b) ==> InTable(outbox', b))
            && (forall at, m :: Produced(outbox, at, m) ==> Produced(outbox', at, m))
  {
    assert forall i :: 0 <= i < |outbox| ==> (outbox + [row])[i] == outbox[i];
  }

  lemma InsertedCount(outbox: seq<OutboxRow>, row: OutboxRow, o: OrderId, t: EventType)
    ensures CountRows(outbox + [row], o, t)
            == CountRows(outbox, o, t) + if row.orderId == o && row.eventType == t then 1 else 0
    ensures LastType(outbox + [row], o) == if row.orderId == o then Some(row.eventType) else LastType(outbox, o)
  {
    assert (outbox + [row])[..|outbox|] == outbox;
  }

  lemma {:induction false} NoRows(outbox: seq<OutboxRow>, o: OrderId, t: EventType)
    requires forall i :: 0 <= i < |outbox| ==> outbox[i].orderId != o
    ensures CountRows(outbox, o, t) == 0
  {
    if outbox != [] {
      NoRows(outbox[..|outbox| - 1], o, t);
    }
  }

  lemma {:induction false} MarkedCounts(outbox: seq<OutboxRow>, id: string, o: OrderId, t: EventType)
    ensures CountRows(MarkSent(outbox, id), o, t) == CountRows(outbox, o, t)
    ensures LastType(MarkSent(outbox, id), o) == LastType(outbox, o)
  {
    if outbox != [] {
      var n := |outbox| - 1;
      MarkedCounts(outbox[..n], id, o, t);
      assert MarkSent(outbox, id)[..n] == MarkSent(outbox[..n], id);
    }
  }

  lemma MarkedRows(outbox: seq<OutboxRow>, id: string)
    ensures var marked := MarkSent(outbox, id);
            && (forall b :: InTable(outbox, b) ==> InTable(marked, b))
            && (forall at, m :: Produced(outbox, at, m) ==> Produced(marked, at, m))
            && (forall i :: 0 <= i < |marked| ==>
                  SameRow(outbox[i], marked[i]) && MessageOf(marked[i]) == MessageOf(outbox[i]))
  {
    var marked := MarkSent(outbox, id);
    forall b | InTable(outbox, b) ensures InTable(marked, b) {
      var i :| 0 <= i < |outbox| && SameRow(outbox[i], b);
      assert SameRow(marked[i], b);
    }
    forall at, m | Produced(outbox, at, m) ensures Produced(marked, at, m) {
      var i :| 0 <= i < |outbox| && MessageOf(outbox[i]) == m && outbox[i].topic == at.topic;
      assert MessageOf(marked[i]) == m && marked[i].topic == at.topic;
    }
  }

  lemma Appended(logs: Logs, at: Partition, m: Message, row: OutboxRow)
    requires Published(logs, row)
    ensures Published(Append(logs, at, m), row)
  {
    var p: Partition, k: nat :| p in logs && p.topic == row.topic && k < |logs[p]| && logs[p][k] == MessageOf(row);
    var logs' := Append(logs, at, m);
    assert p in logs' && k < |logs'[p]| && logs'[p][k] == MessageOf(row);
  }

  // ----- Preservation, one lemma for each action that writes the tables or the logs -----

  /** What CreateOrder and the request writes have in common. */
  ghost predicate Insertable(s: Sales, order: Order, e: Event) {
    && order.id != "" && e.orderId == order.id && EventOf(order.status) == e.Type()
    && (if order.id in s.orders then SameOrder(order, s.orders[order.id]) && order.status != StatusCreated
        else e == Creation(order))
  }

  lemma RowsInserted(s: Sales, order: Order, rowId: string, e: Event, rowTime: int)
    requires RowsOk(s) && FreshId(s.outbox, rowId) && Insertable(s, order, e)
    ensures RowsOk(Transact(s, order, NewRow(rowId, e, rowTime)))
  {
    NewRowOk(rowId, e, rowTime);
    var s' := Transact(s, order, NewRow(rowId, e, rowTime));
    forall i | 0 <= i < |s.outbox| ensures s'.outbox[i] == s.outbox[i] {
    }
  }

  lemma OrdersInserted(s: Sales, order: Order, row: OutboxRow)
    requires OrdersOk(s) && order.id != "" && row.orderId == order.id && row.eventType == EventOf(order.status)
    requires if order.id in s.orders then order.status != StatusCreated
             else order.status == StatusCreated && forall i :: 0 <= i < |s.outbox| ==> s.outbox[i].orderId != order.id
    ensures OrdersOk(Transact(s, order, row))
  {
    forall o | o in s.orders || o == order.id
      ensures CountRows(s.outbox + [row], o, OrderCreated) == 1
      ensures LastType(s.outbox + [row], o)
              == Some(EventOf(if o == order.id then order.status else s.orders[o].status))
    {
      InsertedCount(s.outbox, row, o, OrderCreated);
      if o !in s.orders {
        NoRows(s.outbox, o, OrderCreated);
      }
    }
  }

  lemma RequestsInserted(s: Sales, order: Order, rowId: string, e: Event, rowTime: int)
    requires RequestsOk(s) && Insertable(s, order, e)
    ensures RequestsOk(Transact(s, order, NewRow(rowId, e, rowTime)))
  {
  }

  /** A new row is pending, so the relay's obligations are those it had. */
  lemma RelayInserted(s: Sales, logs: Logs, order: Order, row: OutboxRow)
    requires RelayOk(s, logs) && LogsOk(s, logs) && row.status == RowPending
    ensures var s' := Transact(s, order, row);
            RelayOk(s', logs) && LogsOk(s', logs)
  {
    Inserted(s.outbox, row);
  }

  lemma FetchKeeps(s: Sales, logs: Logs, limit: nat, batch: seq<OutboxRow>)
    requires RelayOk(s, logs) && IsFetch(s.outbox, limit, batch)
    ensures RelayOk(s.(relay := RelayState(batch, false)), logs)
  {
    forall b | b in batch ensures InTable(s.outbox, b) {
      FetchedRow(s.outbox, limit, batch, b);
      var i :| 0 <= i < |s.outbox| && s.outbox[i] == b;
      assert SameRow(s.outbox[i], b);
    }
  }

  lemma BatchHead(s: Sales, logs: Logs) returns (i: nat)
    requires RelayOk(s, logs) && s.relay.batch != []
    ensures i < |s.outbox| && SameRow(s.outbox[i], s.relay.batch[0])
  {
    assert InTable(s.outbox, s.relay.batch[0]);
    i :| 0 <= i < |s.outbox| && SameRow(s.outbox[i], s.relay.batch[0]);
  }

  /** Publishing appends a message of the table, and everything published stays so. */
  lemma PublishKeeps(s: Sales, logs: Logs, number: nat, ack: Ack)
    requires RelayOk(s, logs) && LogsOk(s, logs) && s.relay.batch != [] && !s.relay.published
    ensures var a := RelayPublish(number, ack);
            var s', logs' := SalesEffect(s, a), LogsEffect(s, logs, a);
            RelayOk(s', logs') && LogsOk(s', logs')
  {
    var row := s.relay.batch[0];
    var at, m := Partition(row.topic, number), MessageOf(row);
    var logs' := Append(logs, at, m);
    if ack.Effective() {
      forall r | Published(logs, r) ensures Published(logs', r) {
        Appended(logs, at, m, r);
      }
      var i := BatchHead(s, logs);
      assert MessageOf(s.outbox[i]) == m && s.outbox[i].topic == at.topic;
      assert Produced(s.outbox, at, m);
      var k := |Log(logs, at)|;
      assert at in logs' && logs'[at][k] == m;
      assert Published(logs', row);
      forall p: Partition, j: nat | p in logs' && j < |logs'[p]|
        ensures Produced(s.outbox, p, logs'[p][j])
      {
        if p != at || j != k {
          assert p in logs && logs'[p][j] == logs[p][j];
        }
      }
    }
  }

  lemma SamePublished(logs: Logs, a: OutboxRow, b: OutboxRow)
    requires Published(logs, a) && a.topic == b.topic && MessageOf(a) == MessageOf(b)
    ensures Published(logs, b)
  {
    var p: Partition, k: nat :| p in logs && p.topic == a.topic && k < |logs[p]| && logs[p][k] == MessageOf(a);
    assert p in logs && p.topic == b.topic && k < |logs[p]| && logs[p][k] == MessageOf(b);
  }

  /** Marking changes a status column only. */
  lemma MarkKeepsTables(s: Sales, id: string)
    requires RowsOk(s) && OrdersOk(s)
    ensures var s' := s.(outbox := MarkSent(s.outbox, id));
            RowsOk(s') && OrdersOk(s')
  {
    forall o | o in s.orders
      ensures CountRows(MarkSent(s.outbox, id), o, OrderCreated) == 1
      ensures LastType(MarkSent(s.outbox, id), o) == Some(EventOf(s.orders[o].status))
    {
      MarkedCounts(s.outbox, id, o, OrderCreated);
    }
    MarkedRows(s.outbox, id);
  }

  /** The row that is marked is the one that was published: ids are unique. */
  lemma MarkKeepsRelay(s: Sales, logs: Logs)
    requires DistinctIds(s.outbox) && RelayOk(s, logs) && LogsOk(s, logs) && s.relay.batch != [] && s.relay.published
    ensures var s' := s.(outbox := MarkSent(s.outbox, s.relay.batch[0].id),
                         relay := RelayState(s.relay.batch[1..], false));
            RelayOk(s', logs) && LogsOk(s', logs)
  {
    var row := s.relay.batch[0];
    var outbox' := MarkSent(s.outbox, row.id);
    MarkedRows(s.outbox, row.id);
    var j := BatchHead(s, logs);
    forall i | 0 <= i < |outbox'| && outbox'[i].status == RowSent
      ensures Published(logs, outbox'[i])
    {
      if s.outbox[i].id == row.id {
        assert i == j;
        SamePublished(logs, row, outbox'[i]);
      } else {
        assert outbox'[i] == s.outbox[i];
      }
    }
  }

  lemma InsertKeeps(s: Sales, logs: Logs, order: Order, rowId: string, e: Event, rowTime: int)
    requires OrderInv(s, logs) && FreshId(s.outbox, rowId) && Insertable(s, order, e)
    ensures OrderInv(Transact(s, order, NewRow(rowId, e, rowTime)), logs)
  {
    RowsInserted(s, order, rowId, e, rowTime);
    OrdersInserted(s, order, NewRow(rowId, e, rowTime));
    RequestsInserted(s, order, rowId, e, rowTime);
    RelayInserted(s, logs, order, NewRow(rowId, e, rowTime));
  }

  /** Requests may come and go, and the relay may drop its batch. */
  lemma TablesKept(s: Sales, s': Sales, logs: Logs)
    requires OrderInv(s, logs) && s'.orders == s.orders && s'.outbox == s.outbox && RequestsOk(s')
    requires s'.relay == s.relay || s'.relay == RelayState([], false)
    ensures OrderInv(s', logs)
  {
  }

  lemma CreateKeeps(s: Sales, logs: Logs, a: Action)
    requires OrderInv(s, logs) && a.CreateOrder? && SalesEnabled(s, a)
    ensures OrderInv(SalesEffect(s, a), logs)
  {
    InsertKeeps(s, logs, a.order, a.rowId, Creation(a.order), a.rowTime);
  }

  lemma WriteKeeps(s: Sales, logs: Logs, a: Action)
    requires OrderInv(s, logs) && a.WriteOrder? && SalesEnabled(s, a)
    ensures OrderInv(SalesEffect(s, a), logs)
  {
    var q := s.requests[a.request];
    var e := EventFor(q.order, q.target, a.eventTime);
    InsertKeeps(s, logs, Outcome(q), a.rowId, e, a.rowTime);
    TablesKept(Transact(s, Outcome(q), NewRow(a.rowId, e, a.rowTime)), SalesEffect(s, a), logs);
  }

  lemma RequestKeeps(s: Sales, logs: Logs, a: Action)
    requires OrderInv(s, logs) && (a.ReadOrder? || a.DropRequest? || a.OrderServiceCrash?) && SalesEnabled(s, a)
    ensures OrderInv(SalesEffect(s, a), logs)
  {
    TablesKept(s, SalesEffect(s, a), logs);
  }

  lemma RelayKeeps(s: Sales, logs: Logs, a: Action)
    requires OrderInv(s, logs) && (a.RelayFetch? || a.RelayPublish? || a.RelayMark?) && SalesEnabled(s, a)
    ensures OrderInv(SalesEffect(s, a), LogsEffect(s, logs, a))
  {
    match a {
      case RelayFetch(limit, batch) => FetchKeeps(s, logs, limit, batch);
      case RelayPublish(number, ack) => PublishKeeps(s, logs, number, ack);
      case RelayMark(ack) =>
        if ack.Effective() {
          MarkKeepsTables(s, s.relay.batch[0].id);
          MarkKeepsRelay(s, logs);
        }
    }
  }

  lemma OrderStep(s: State, a: Action)
    requires OrderInv(s.sales, s.logs)
    ensures OrderInv(Apply(s, a).sales, Apply(s, a).logs)
  {
    if a.OfSales() && Enabled(s, a) {
      if a.CreateOrder? {
        CreateKeeps(s.sales, s.logs, a);
      } else if a.WriteOrder? {
        WriteKeeps(s.sales, s.logs, a);
      } else if a.RelayFetch? || a.RelayPublish? || a.RelayMark? {
        RelayKeeps(s.sales, s.logs, a);
      } else {
        RequestKeeps(s.sales, s.logs, a);
      }
    }
  }

  lemma {:induction false} OrderInvHolds(acts: seq<Action>)
    ensures var s := Exec(INIT, acts); OrderInv(s.sales, s.logs)
  {
    if acts != [] {
      OrderInvHolds(acts[..|acts| - 1]);
      OrderStep(Exec(INIT, acts[..|acts| - 1]), acts[|acts| - 1]);
    }
  }
}

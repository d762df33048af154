/** order_service/internal/service/order.go over the orders and outbox tables. */
module Ordering {
  import opened Prelude
  import opened Domain
  import opened Outbox
  import opened Pricing
  import opened Protocol

  lemma Extend(s0: State, acts: seq<Action>, a: Action)
    requires Valid(s0, acts) && Enabled(Exec(s0, acts), a)
    ensures Valid(s0, acts + [a]) && Exec(s0, acts + [a]) == Apply(Exec(s0, acts), a)
  {
    ExecSnoc(s0, acts, a);
  }

  lemma One(s0: State, a: Action)
    requires Enabled(s0, a)
    ensures Valid(s0, [a]) && Exec(s0, [a]) == Apply(s0, a)
  {
    Extend(s0, [], a);
    assert [] + [a] == [a];
  }

  lemma Two(s0: State, a: Action, b: Action)
    requires Enabled(s0, a) && Enabled(Apply(s0, a), b)
    ensures Valid(s0, [a, b]) && Exec(s0, [a, b]) == Apply(Apply(s0, a), b)
  {
    One(s0, a);
    Extend(s0, [a], b);
    assert [a] + [b] == [a, b];
  }

  /** The order service's database. */
  class OrderDb {
    var orders: map<OrderId, Order>
    var outbox: seq<OutboxRow>

    constructor ()
      ensures orders == map[] && outbox == []
    {
      orders, outbox := map[], [];
    }

    /** The tables are those of a protocol state. */
    ghost predicate Shows(s: Sales)
      reads this
    {
      s.orders == orders && s.outbox == outbox
    }

    /** A failed read and a missing row look the same to the service. */
    method Get(id: OrderId, ok: bool) returns (r: Option<Order>)
      ensures r == if ok && id in orders then Some(orders[id]) else None
    {
      if ok && id in orders { r := Some(orders[id]); } else { r := None; }
    }

    /** tx.Save(order) and the outbox insert, in one transaction. */
    method Transaction(order: Order, row: OutboxRow, ack: Ack) returns (failed: bool)
      modifies this
      ensures failed <==> !ack.Acked?
      ensures orders == if !ack.Lost? then old(orders)[order.id := order] else old(orders)
      ensures outbox == if !ack.Lost? then old(outbox) + [row] else old(outbox)
    {
      if ack.Effective() {
        orders := orders[order.id := order];
        outbox := outbox + [row];
      }
      return !ack.Acked?;
    }

    /** The oldest pending rows in order of creation time, or the query's error. */
    method FetchPending(limit: nat, ok: bool) returns (batch: seq<OutboxRow>, failed: bool)
      requires DistinctIds(outbox)
      ensures failed <==> !ok
      ensures if failed then batch == [] else IsFetch(outbox, limit, batch)
    {
      if !ok {
        return [], true;
      }
      FetchIsFetch(outbox, limit);
      return OldestPending(outbox, limit), false;
    }

    method MarkSent(id: string, ack: Ack) returns (failed: bool)
      modifies this`outbox
      ensures failed <==> !ack.Acked?
      ensures outbox == if !ack.Lost? then Outbox.MarkSent(old(outbox), id) else old(outbox)
    {
      if ack.Effective() {
        outbox := Outbox.MarkSent(outbox, id);
      }
      return !ack.Acked?;
    }
  }

  /** What an operation draws from outside: fresh identifiers, the clock, whether its read
      succeeds, and the transaction's fate. */
  datatype TxIo = TxIo(readOk: bool, rowId: string, eventTime: int, rowTime: int, ack: Ack)

  class OrderService {
    const db: OrderDb
    const topicMap: map<EventType, Topic>

    constructor (db: OrderDb, topicMap: map<EventType, Topic>)
      ensures this.db == db && this.topicMap == topicMap
    {
      this.db, this.topicMap := db, topicMap;
    }

    /** Every event type has its topic, as the application configures it. */
    ghost predicate Configured() {
      forall e: EventType :: e in topicMap && topicMap[e] == TopicFor(e)
    }

    method WriteWithOutbox(order: Order, e: Event, io: TxIo) returns (error: Option<ErrorCode>)
      modifies db
      ensures e.Type() !in topicMap ==>
                error == Some(Internal) && db.orders == old(db.orders) && db.outbox == old(db.outbox)
      ensures e.Type() in topicMap ==>
                var row := OutboxRow(io.rowId, order.id, e.Type(), topicMap[e.Type()],
                                     Encode(e), RowPending, io.rowTime);
                && (error == None <==> io.ack.Acked?) && (error.Some? ==> error == Some(Internal))
                && db.orders == (if !io.ack.Lost? then old(db.orders)[order.id := order] else old(db.orders))
                && db.outbox == (if !io.ack.Lost? then old(db.outbox) + [row] else old(db.outbox))
    {
      if e.Type() !in topicMap {
        return Some(Internal);
      }
      var topic := topicMap[e.Type()];
      var row := OutboxRow(io.rowId, order.id, e.Type(), topic, Encode(e), RowPending, io.rowTime);
      var failed := db.Transaction(order, row, io.ack);
      return if failed then Some(Internal) else None;
    }

    /** Validation, pricing, and the order with its event in one transaction. The result is the stored
        order; an error means nothing was stored, except that an internal error may hide a commit whose
        acknowledgement was lost. With all topics configured the call is a run of the protocol. */
    method CreateOrder(items: seq<OrderItem>, id: OrderId, now: int, io: TxIo, ghost s: State)
      returns (r: Result<Order, ErrorCode>, ghost acts: seq<Action>)
      requires id != "" && id !in db.orders && FreshId(db.outbox, io.rowId) && db.Shows(s.sales)
      modifies db
      ensures !ValidItems(items) ==> r == Err(InvalidInput)
      ensures ValidItems(items) ==> r == Err(Internal) || r.Ok?
      ensures r.Ok? <==> ValidItems(items) && OrderCreated in topicMap && io.ack.Acked?
      ensures r.Ok? ==>
                && Total(items) == Ok(r.value.total.amount)
                && r.value == Order(id, items, Money(r.value.total.amount, "USD"), StatusCreated, now)
                && db.orders == old(db.orders)[id := r.value]
                && db.outbox == old(db.outbox)
                                + [NewRow(io.rowId, CreatedEvent(id, r.value.total, items, now), io.rowTime)
                                   .(topic := topicMap[OrderCreated])]
      ensures (ValidItems(items) && OrderCreated in topicMap && !io.ack.Lost?)
              || (db.orders == old(db.orders) && db.outbox == old(db.outbox))
      ensures Configured() ==> Valid(s, acts) && db.Shows(Exec(s, acts).sales)
    {
      acts := [];
      var invalid := ValidateItems(items);
      if invalid.Some? {
        return Err(InvalidInput), acts;
      }
      var total := CalcTotalUSD(items);
      ValidItemsConvert(items);
      if total.Err? {
        return Err(InvalidInput), acts;
      }
      var order := Order(id, items, Money(total.value, "USD"), StatusCreated, now);
      var event := CreatedEvent(order.id, order.total, order.items, order.createdAt);
      var error := WriteWithOutbox(order, event, io);
      if Configured() && io.ack.Effective() {
        ghost var a := Action.CreateOrder(order, io.rowId, io.rowTime);
        One(s, a);
        acts := [a];
      }
      if error.Some? {
        return Err(Internal), acts;
      }
      return Ok(order), acts;
    }

    method GetOrder(id: OrderId, readOk: bool) returns (r: Result<Order, ErrorCode>)
      ensures r == if id == "" then Err(InvalidInput)
                   else if !readOk || id !in db.orders then Err(NotFound) else Ok(db.orders[id])
    {
      if id == "" {
        return Err(InvalidInput);
      }
      var order := db.Get(id, readOk);
      return if order.None? then Err(NotFound) else Ok(order.value);
    }

    /** CREATED to PAID, and nothing else; two protocol steps, the read and the transaction, between which
        other requests may run. */
    method MarkOrderPaid(id: OrderId, io: TxIo, ghost request: nat, ghost s: State)
      returns (r: Result<Order, ErrorCode>, ghost acts: seq<Action>)
      requires FreshId(db.outbox, io.rowId) && db.Shows(s.sales) && request !in s.sales.requests
      requires forall o :: o in db.orders ==> db.orders[o].id == o
      modifies db
      ensures r.Err? && r.error == InvalidInput <==> id == ""
      ensures r.Err? && r.error == NotFound <==> id != "" && (!io.readOk || id !in old(db.orders))
      ensures r.Err? && r.error == InvalidState <==>
                id != "" && io.readOk && id in old(db.orders) && old(db.orders)[id].status != StatusCreated
      ensures r.Ok? <==> id != "" && io.readOk && id in old(db.orders) && old(db.orders)[id].status == StatusCreated
                         && OrderPaid in topicMap && io.ack.Acked?
      ensures r.Ok? ==> r.value == old(db.orders)[id].(status := StatusPaid)
                        && db.orders == old(db.orders)[id := r.value]
                        && db.outbox == old(db.outbox) + [NewRow(io.rowId, PaidEvent(id, io.eventTime), io.rowTime)
                                                          .(topic := topicMap[OrderPaid])]
      ensures r.Err? && (r.error != Internal || io.ack.Lost?) ==>
                db.orders == old(db.orders) && db.outbox == old(db.outbox)
      ensures Configured() ==> Valid(s, acts) && db.Shows(Exec(s, acts).sales)
    {
      acts := [];
      if id == "" {
        return Err(InvalidInput), acts;
      }
      var found := db.Get(id, io.readOk);
      if found.None? {
        return Err(NotFound), acts;
      }
      var order := found.value;
      if order.status != StatusCreated {
        return Err(InvalidState), acts;
      }
      order := order.(status := StatusPaid);
      var error := WriteWithOutbox(order, PaidEvent(order.id, io.eventTime), io);
      acts := RequestTrace(s, request, id, StatusPaid, io);
      if error.Some? {
        return Err(Internal), acts;
      }
      return Ok(order), acts;
    }

    /** CREATED to CANCELLED; a cancelled order is returned as it is and a paid one refused. */
    method CancelOrder(id: OrderId, io: TxIo, ghost request: nat, ghost s: State)
      returns (r: Result<Order, ErrorCode>, ghost acts: seq<Action>)
      requires FreshId(db.outbox, io.rowId) && db.Shows(s.sales) && request !in s.sales.requests
      requires forall o :: o in db.orders ==> db.orders[o].id == o
      modifies db
      ensures r.Err? && r.error == InvalidInput <==> id == ""
      ensures r.Err? && r.error == NotFound <==> id != "" && (!io.readOk || id !in old(db.orders))
      ensures r.Err? && r.error == InvalidState <==>
                id != "" && io.readOk && id in old(db.orders) && old(db.orders)[id].status == StatusPaid
      ensures id != "" && io.readOk && id in old(db.orders) && old(db.orders)[id].status == StatusCancelled ==>
                r == Ok(old(db.orders)[id]) && db.orders == old(db.orders) && db.outbox == old(db.outbox)
      ensures r.Ok? <==> id != "" && io.readOk && id in old(db.orders)
                         && (old(db.orders)[id].status == StatusCancelled
                             || (old(db.orders)[id].status == StatusCreated
                                 && OrderCancelled in topicMap && io.ack.Acked?))
      ensures r.Ok? && old(db.orders)[id].status == StatusCreated ==>
                && r.value == old(db.orders)[id].(status := StatusCancelled)
                && db.orders == old(db.orders)[id := r.value]
                && db.outbox == old(db.outbox) + [NewRow(io.rowId, CancelledEvent(id, io.eventTime), io.rowTime)
                                                  .(topic := topicMap[OrderCancelled])]
      ensures r.Err? && (r.error != Internal || io.ack.Lost?) ==>
                db.orders == old(db.orders) && db.outbox == old(db.outbox)
      ensures Configured() ==> Valid(s, acts) && db.Shows(Exec(s, acts).sales)
    {
      acts := [];
      if id == "" {
        return Err(InvalidInput), acts;
      }
      var found := db.Get(id, io.readOk);
      if found.None? {
        return Err(NotFound), acts;
      }
      var order := found.value;
      if order.status == StatusPaid {
        return Err(InvalidState), acts;
      }
      if order.status == StatusCancelled {
        return Ok(order), acts;
      }
      order := order.(status := StatusCancelled);
      var error := WriteWithOutbox(order, CancelledEvent(order.id, io.eventTime), io);
      acts := RequestTrace(s, request, id, StatusCancelled, io);
      if error.Some? {
        return Err(Internal), acts;
      }
      return Ok(order), acts;
    }
  }

  /** The protocol's view of a request that reads and then writes, or gives up on an error. */
  lemma RequestTrace(s: State, request: nat, id: OrderId, target: OrderStatus, io: TxIo) returns (acts: seq<Action>)
    requires request !in s.sales.requests && id in s.sales.orders && s.sales.orders[id].status == StatusCreated
    requires s.sales.orders[id].id == id && target != StatusCreated && FreshId(s.sales.outbox, io.rowId)
    ensures Valid(s, acts)
    ensures
      var sales, order := Exec(s, acts).sales, s.sales.orders[id];
      if io.ack.Effective()
      then sales.orders == s.sales.orders[id := order.(status := target)]
           && sales.outbox == s.sales.outbox + [NewRow(io.rowId, EventFor(order, target, io.eventTime), io.rowTime)]
      else sales.orders == s.sales.orders && sales.outbox == s.sales.outbox
  {
    var read := ReadOrder(request, id, target);
    var next := if io.ack.Effective() then WriteOrder(request, io.eventTime, io.rowId, io.rowTime)
                else DropRequest(request);
    Two(s, read, next);
    acts := [read, next];
  }
}

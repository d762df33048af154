/** How an event is lost without any interleaving of requests: a payment that overtakes its order's creation
    is refused three times, dead-lettered and committed over. */
module Overtaking {
  import opened Domain
  import opened Outbox
  import opened Billing
  import opened Protocol
  import opened OrderSide
  import opened Invoicing
  import opened Ordering
  import opened Guarantees
  import opened Scenarios

  function Rows(order: Order, paidAt: int): seq<OutboxRow> {
    [NewRow("r0", Creation(order), 0), NewRow("r1", PaidEvent(order.id, paidAt), 1)]
  }

  function Sold(order: Order, paidAt: int): Sales {
    Sales(map[order.id := order.(status := StatusPaid)], Rows(order, paidAt), map[], RelayState([], false))
  }

  /** The order is created and then paid. */
  lemma Sale(order: Order, paidAt: int) returns (acts: seq<Action>)
    requires NewOrder(order)
    ensures Valid(INIT, acts) && Exec(INIT, acts) == INIT.(sales := Sold(order, paidAt))
  {
    var o, rows := order.id, Rows(order, paidAt);
    var create, read, pay := CreateOrder(order, "r0", 0), ReadOrder(0, o, StatusPaid), WriteOrder(0, paidAt, "r1", 1);
    Two(INIT, create, read);
    var requests := map[0 := Request(order, StatusPaid)];
    var s := INIT.(sales := Sales(map[o := order], [rows[0]], requests, RelayState([], false)));
    assert Exec(INIT, [create, read]) == s;
    assert s.sales.requests - {0} == map[];
    assert s.sales.orders[o := order.(status := StatusPaid)] == map[o := order.(status := StatusPaid)];
    Extend(INIT, [create, read], pay);
    acts := [create, read] + [pay];
  }

  lemma SaleBatch(order: Order, paidAt: int)
    ensures Batch(Rows(order, paidAt)) && OneTerminal(SentFirst(Rows(order, paidAt), 2))
  {
    var rows := Rows(order, paidAt);
    assert rows[0].id[1] != rows[1].id[1];
  }

  function Relayed(order: Order, paidAt: int): State { Sending(Sold(order, paidAt), Rows(order, paidAt), 2) }

  /** The first message of each of two topics: an order's creation and its payment. */
  ghost predicate Pair(logs: Logs, c: Slot, p: Slot, created: Event, paid: Event) {
    && created.CreatedEvent? && paid.PaidEvent? && created.orderId == paid.orderId
    && c.offset == p.offset == 0 && c.at.topic != p.at.topic && Holds(logs, c, created) && Holds(logs, p, paid)
  }

  /** The payment comes first, and finds no invoice; then the creation is handled. */
  lemma ServeBoth(s: State, c: Slot, p: Slot, created: Event, paid: Event)
    returns (acts: seq<Action>, a: Office, b: Office)
    requires s.office == INIT.office && Pair(s.logs, c, p, created, paid)
    ensures Valid(s, acts) && Exec(s, acts) == s.(office := b)
    ensures Serves(s.office, a, p, map[], {}, [DeadLetter(p, HandlerFailed(NotFound))])
    ensures paid.orderId in b.invoices && b.invoices[paid.orderId].status == InvoicePending
    ensures Serves(a, b, c, b.invoices, {Key(created)}, [])
  {
    var first;
    first, a := Serve(s, p, paid);
    var second;
    second, b := Serve(s.(office := a), c, created);
    ExecAppend(s, first, second);
    acts := first + second;
  }

  lemma ServeOvertaken(s: State, c: Slot, p: Slot, created: Event, paid: Event) returns (acts: seq<Action>, b: Office)
    requires s.office == INIT.office && Pair(s.logs, c, p, created, paid)
    ensures Valid(s, acts) && Exec(s, acts) == s.(office := b)
    ensures paid.orderId in b.invoices && b.invoices[paid.orderId].status == InvoicePending
    ensures b.letters == [DeadLetter(p, HandlerFailed(NotFound))]
    ensures b.committed == map[][p.at := 1][c.at := 1]
  {
    var a;
    acts, a, b := ServeBoth(s, c, p, created, paid);
  }

  lemma SaleHeld(order: Order, paidAt: int)
    requires order.id != ""
    ensures
      var rows := Rows(order, paidAt);
      Pair(LogsAfter(rows, 2), SlotOf(rows, 0), SlotOf(rows, 1), Creation(order), PaidEvent(order.id, paidAt))
  {
    var rows := Rows(order, paidAt);
    NewRowOk("r0", Creation(order), 0);
    NewRowOk("r1", PaidEvent(order.id, paidAt), 1);
    SaleBatch(order, paidAt);
    RowHeld(rows, 0);
    RowHeld(rows, 1);
  }

  lemma SaleCommitted(b: Office, rows: seq<OutboxRow>)
    requires |rows| == 2 && b.committed == map[][SlotOf(rows, 1).at := 1][SlotOf(rows, 0).at := 1]
    ensures forall at :: Committed(b, at) == if IsSlot(rows, at) then 1 else 0
  {
    forall at ensures IsSlot(rows, at) <==> at in b.committed {
      assert at == SlotOf(rows, 0).at || at == SlotOf(rows, 1).at ==> IsSlot(rows, at);
    }
  }

  lemma SaleServed(order: Order, paidAt: int) returns (acts: seq<Action>, b: Office)
    requires NewOrder(order)
    ensures var s := Relayed(order, paidAt);
            Valid(s, acts) && Exec(s, acts) == s.(office := b) && Quiescent(s.(office := b))
    ensures order.id in b.invoices && b.invoices[order.id].status == InvoicePending
    ensures b.letters == [DeadLetter(SlotOf(Rows(order, paidAt), 1), HandlerFailed(NotFound))]
  {
    var rows, s := Rows(order, paidAt), Relayed(order, paidAt);
    SaleBatch(order, paidAt);
    SaleHeld(order, paidAt);
    acts, b := ServeOvertaken(s, SlotOf(rows, 0), SlotOf(rows, 1), Creation(order), PaidEvent(order.id, paidAt));
    SaleCommitted(b, rows);
    AllServed(s.(office := b), rows);
  }

  /** For every new order there is a run, one request at a time and every call to a database or broker a
      success, that ends quiescent with the order PAID, its invoice PENDING, and the payment lost to a dead
      letter. */
  lemma LostPayment(order: Order, paidAt: int) returns (acts: seq<Action>)
    requires NewOrder(order)
    ensures Valid(INIT, acts) && FreshRun(acts) && Quiescent(Exec(INIT, acts))
    ensures
      var s := Exec(INIT, acts);
      && order.id in s.sales.orders && s.sales.orders[order.id] == order.(status := StatusPaid)
      && order.id in s.office.invoices && s.office.invoices[order.id].status == InvoicePending
      && s.office.letters == [DeadLetter(SlotOf(Rows(order, paidAt), 1), HandlerFailed(NotFound))]
  {
    SaleBatch(order, paidAt);
    var sale := Sale(order, paidAt);
    var relay := RelayAll(Sold(order, paidAt), Rows(order, paidAt));
    var serve, b := SaleServed(order, paidAt);
    ExecAppend(INIT, sale, relay);
    ExecAppend(INIT, sale + relay, serve);
    acts := sale + relay + serve;
    OneTerminalIffFresh(acts);
  }
}

/** Why some theorems need the premise that no order is both paid and cancelled: the reads of
    order_service/internal/service/order.go:147 and :171 are outside the transaction, so a payment and a
    cancellation of one order can both commit. */
module Interleaving {
  import opened Domain
  import opened Outbox
  import opened Billing
  import opened Protocol
  import opened OrderSide
  import opened Invoicing
  import opened Ordering
  import opened Guarantees
  import opened Scenarios

  /** The three rows of the race, in commit order. */
  function Rows(order: Order, paidAt: int, cancelledAt: int): seq<OutboxRow> {
    [NewRow("r0", Creation(order), 0),
     NewRow("r1", PaidEvent(order.id, paidAt), 1),
     NewRow("r2", CancelledEvent(order.id, cancelledAt), 2)]
  }

  function Raced(order: Order, paidAt: int, cancelledAt: int): Sales {
    Sales(map[order.id := order.(status := StatusCancelled)], Rows(order, paidAt, cancelledAt), map[],
          RelayState([], false))
  }

  /** Both requests read the order before either writes it. */
  lemma Race(order: Order, paidAt: int, cancelledAt: int) returns (acts: seq<Action>)
    requires NewOrder(order)
    ensures Valid(INIT, acts) && Exec(INIT, acts) == INIT.(sales := Raced(order, paidAt, cancelledAt))
  {
    var o, rows := order.id, Rows(order, paidAt, cancelledAt);
    var create := CreateOrder(order, "r0", 0);
    var pay, cancel := ReadOrder(0, o, StatusPaid), ReadOrder(1, o, StatusCancelled);
    One(INIT, create);
    var s1 := INIT.(sales := Sales(map[o := order], [rows[0]], map[], RelayState([], false)));
    assert Exec(INIT, [create]) == s1;
    Extend(INIT, [create], pay);
    Extend(INIT, [create] + [pay], cancel);
    var requests := map[0 := Request(order, StatusPaid), 1 := Request(order, StatusCancelled)];
    var s3 := INIT.(sales := Sales(map[o := order], [rows[0]], requests, RelayState([], false)));
    acts := [create] + [pay] + [cancel];
    assert Exec(INIT, acts) == s3;
    RaceWrites(order, paidAt, cancelledAt, s3);
    var writes := [WriteOrder(0, paidAt, "r1", 1), WriteOrder(1, cancelledAt, "r2", 2)];
    ExecAppend(INIT, acts, writes);
    acts := acts + writes;
  }

  lemma RaceWrites(order: Order, paidAt: int, cancelledAt: int, s: State)
    requires s == INIT.(sales := Sales(map[order.id := order], Rows(order, paidAt, cancelledAt)[..1],
                map[0 := Request(order, StatusPaid), 1 := Request(order, StatusCancelled)], RelayState([], false)))
    ensures var writes := [WriteOrder(0, paidAt, "r1", 1), WriteOrder(1, cancelledAt, "r2", 2)];
            Valid(s, writes) && Exec(s, writes) == INIT.(sales := Raced(order, paidAt, cancelledAt))
  {
    var pay, cancel := WriteOrder(0, paidAt, "r1", 1), WriteOrder(1, cancelledAt, "r2", 2);
    Two(s, pay, cancel);
    assert s.sales.requests - {0} - {1} == map[];
    assert s.sales.orders[order.id := order.(status := StatusPaid)][order.id := order.(status := StatusCancelled)]
           == map[order.id := order.(status := StatusCancelled)];
    var rows := Rows(order, paidAt, cancelledAt);
    assert rows[..1] + [rows[1]] + [rows[2]] == rows;
  }

  lemma RaceBatch(order: Order, paidAt: int, cancelledAt: int)
    ensures Batch(Rows(order, paidAt, cancelledAt))
  {
    var rows := Rows(order, paidAt, cancelledAt);
    assert rows[0].id[1] != rows[1].id[1] && rows[0].id[1] != rows[2].id[1] && rows[1].id[1] != rows[2].id[1];
  }

  function Relayed(order: Order, paidAt: int, cancelledAt: int): State {
    Sending(Raced(order, paidAt, cancelledAt), Rows(order, paidAt, cancelledAt), 3)
  }

  /** Creation, payment and cancellation of one order, the first messages of their topics. */
  ghost predicate Triple(logs: Logs, c: Slot, p: Slot, x: Slot, created: Event, paid: Event, cancelled: Event) {
    && created.CreatedEvent? && paid.PaidEvent? && cancelled.CancelledEvent?
    && created.orderId == paid.orderId == cancelled.orderId
    && c.offset == p.offset == x.offset == 0
    && c.at.topic != p.at.topic && c.at.topic != x.at.topic && p.at.topic != x.at.topic
    && Holds(logs, c, created) && Holds(logs, p, paid) && Holds(logs, x, cancelled)
  }

  /** Creation and payment are handled ... */
  lemma ServePayment(s: State, c: Slot, p: Slot, x: Slot, created: Event, paid: Event, cancelled: Event)
    returns (acts: seq<Action>, a: Office, b: Office)
    requires s.office == INIT.office && Triple(s.logs, c, p, x, created, paid, cancelled)
    ensures Valid(s, acts) && Exec(s, acts) == s.(office := b)
    ensures a.invoices.Keys == {paid.orderId} && a.invoices[paid.orderId].status == InvoicePending
    ensures Serves(s.office, a, c, a.invoices, {Key(created)}, [])
    ensures b.invoices.Keys == {paid.orderId} && b.invoices[paid.orderId].status == InvoicePaid
    ensures Serves(a, b, p, b.invoices, {Key(paid)}, [])
  {
    KeysDiffer(created.orderId, created, paid);
    var first;
    first, a := Serve(s, c, created);
    var second;
    second, b := Serve(s.(office := a), p, paid);
    ExecAppend(s, first, second);
    acts := first + second;
  }

  /** ... and the cancellation comes too late. */
  lemma ServeRace(s: State, c: Slot, p: Slot, x: Slot, created: Event, paid: Event, cancelled: Event)
    returns (acts: seq<Action>, b: Office)
    requires s.office == INIT.office && Triple(s.logs, c, p, x, created, paid, cancelled)
    ensures Valid(s, acts) && Exec(s, acts) == s.(office := b)
    ensures paid.orderId in b.invoices && b.invoices[paid.orderId].status == InvoicePaid
    ensures b.letters == [DeadLetter(x, HandlerFailed(InvalidState))]
    ensures b.committed == map[][c.at := 1][p.at := 1][x.at := 1]
  {
    var first, a0, a1 := ServePayment(s, c, p, x, created, paid, cancelled);
    KeysDiffer(created.orderId, created, cancelled);
    KeysDiffer(created.orderId, paid, cancelled);
    var second;
    second, b := Serve(s.(office := a1), x, cancelled);
    ExecAppend(s, first, second);
    acts := first + second;
  }

  // ----- The whole run -----

  lemma RaceHeld(order: Order, paidAt: int, cancelledAt: int)
    requires order.id != ""
    ensures
      var rows := Rows(order, paidAt, cancelledAt);
      Triple(LogsAfter(rows, 3), SlotOf(rows, 0), SlotOf(rows, 1), SlotOf(rows, 2),
             Creation(order), PaidEvent(order.id, paidAt), CancelledEvent(order.id, cancelledAt))
  {
    var rows := Rows(order, paidAt, cancelledAt);
    NewRowOk("r0", Creation(order), 0);
    NewRowOk("r1", PaidEvent(order.id, paidAt), 1);
    NewRowOk("r2", CancelledEvent(order.id, cancelledAt), 2);
    RaceBatch(order, paidAt, cancelledAt);
    RowHeld(rows, 0);
    RowHeld(rows, 1);
    RowHeld(rows, 2);
  }

  lemma RaceServed(order: Order, paidAt: int, cancelledAt: int) returns (acts: seq<Action>, b: Office)
    requires NewOrder(order)
    ensures var s := Relayed(order, paidAt, cancelledAt); Valid(s, acts) && Exec(s, acts) == s.(office := b)
    ensures order.id in b.invoices && b.invoices[order.id].status == InvoicePaid
    ensures forall letter :: letter in b.letters ==> letter.reason == HandlerFailed(InvalidState)
    ensures Quiescent(Relayed(order, paidAt, cancelledAt).(office := b))
  {
    var rows, s := Rows(order, paidAt, cancelledAt), Relayed(order, paidAt, cancelledAt);
    RaceBatch(order, paidAt, cancelledAt);
    RaceHeld(order, paidAt, cancelledAt);
    acts, b := ServeRace(s, SlotOf(rows, 0), SlotOf(rows, 1), SlotOf(rows, 2),
                         Creation(order), PaidEvent(order.id, paidAt), CancelledEvent(order.id, cancelledAt));
    RaceCommitted(b, rows);
    AllServed(s.(office := b), rows);
  }

  lemma RaceRun(order: Order, paidAt: int, cancelledAt: int) returns (acts: seq<Action>, b: Office)
    requires NewOrder(order)
    ensures Valid(INIT, acts) && Exec(INIT, acts) == Relayed(order, paidAt, cancelledAt).(office := b)
    ensures order.id in b.invoices && b.invoices[order.id].status == InvoicePaid
    ensures forall letter :: letter in b.letters ==> letter.reason == HandlerFailed(InvalidState)
    ensures Quiescent(Relayed(order, paidAt, cancelledAt).(office := b))
  {
    RaceBatch(order, paidAt, cancelledAt);
    var race := Race(order, paidAt, cancelledAt);
    var relay := RelayAll(Raced(order, paidAt, cancelledAt), Rows(order, paidAt, cancelledAt));
    var serve;
    serve, b := RaceServed(order, paidAt, cancelledAt);
    ExecAppend(INIT, race, relay);
    ExecAppend(INIT, race + relay, serve);
    acts := race + relay + serve;
  }

  lemma RaceCommitted(b: Office, rows: seq<OutboxRow>)
    requires |rows| == 3
    requires b.committed == map[][SlotOf(rows, 0).at := 1][SlotOf(rows, 1).at := 1][SlotOf(rows, 2).at := 1]
    ensures forall at :: Committed(b, at) == if IsSlot(rows, at) then 1 else 0
  {
    forall at ensures IsSlot(rows, at) <==> at in b.committed {
      assert at == SlotOf(rows, 0).at || at == SlotOf(rows, 1).at || at == SlotOf(rows, 2).at ==> IsSlot(rows, at);
    }
  }

  lemma RaceConflicts(order: Order, paidAt: int, cancelledAt: int)
    ensures !NoConflict(SentFirst(Rows(order, paidAt, cancelledAt), 3))
  {
    var outbox := SentFirst(Rows(order, paidAt, cancelledAt), 3);
    assert outbox[1].orderId == order.id && outbox[1].eventType == OrderPaid;
    assert outbox[2].orderId == order.id && outbox[2].eventType == OrderCancelled;
    assert HasType(outbox, order.id, OrderPaid) && HasType(outbox, order.id, OrderCancelled);
  }

  /** When requests for one order interleave, safety and convergence fail: for every new order there is a run
      that pays and cancels it, ends quiescent with no dead letter but one for an invalid state, and leaves
      the order CANCELLED with a PAID invoice. */
  lemma InterleavedRequestsDiverge(order: Order, paidAt: int, cancelledAt: int) returns (acts: seq<Action>)
    requires NewOrder(order)
    ensures Valid(INIT, acts) && Quiescent(Exec(INIT, acts))
    ensures
      var s := Exec(INIT, acts);
      && (forall letter :: letter in s.office.letters ==> letter.reason == HandlerFailed(InvalidState))
      && order.id in s.sales.orders && s.sales.orders[order.id] == order.(status := StatusCancelled)
      && order.id in s.office.invoices && s.office.invoices[order.id].status == InvoicePaid
    ensures !NoConflict(Exec(INIT, acts).sales.outbox) && !FreshRun(acts)
  {
    var b;
    acts, b := RaceRun(order, paidAt, cancelledAt);
    RaceConflicts(order, paidAt, cancelledAt);
    OneTerminalIffFresh(acts);
    if FreshRun(acts) {
      OneTerminalNoConflict(Exec(INIT, acts).sales.outbox);
      assert false;
    }
  }
}

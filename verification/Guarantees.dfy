/** What the whole system promises, over every run from the initial state. */
module Guarantees {
  import opened Prelude
  import opened Domain
  import opened Dispatch
  import opened Outbox
  import opened Pricing
  import opened Billing
  import opened Stats
  import opened Protocol
  import opened OrderSide
  import opened Delivery
  import opened Invoicing
  import Relaying

  // ----- Every run: interleaved requests, crashes, lost acknowledgements -----

  /** Outbox conservation: one OrderCreated row per order, carrying the order; the order's status is the
      type of its last committed row; SENT rows are in their topic's log; messages come from rows whose
      header, topic, payload and order id agree. */
  lemma OutboxConservation(acts: seq<Action>)
    ensures
      var s := Exec(INIT, acts);
      var outbox := s.sales.outbox;
      && (forall o :: o in s.sales.orders ==>
            CountRows(outbox, o, OrderCreated) == 1
            && LastType(outbox, o) == Some(EventOf(s.sales.orders[o].status)))
      && (forall i :: 0 <= i < |outbox| ==>
            && RowOk(outbox[i]) && outbox[i].orderId in s.sales.orders
            && (outbox[i].eventType == OrderCreated ==>
                  EventIn(outbox[i]) == Creation(s.sales.orders[outbox[i].orderId]))
            && (outbox[i].status == RowSent ==> Published(s.logs, outbox[i])))
      && (forall slot :: InLog(s.logs, slot) ==>
            exists i :: 0 <= i < |outbox| && FromRow(s.logs, slot, outbox[i]))
  {
    OrderInvHolds(acts);
    var s := Exec(INIT, acts);
    forall slot | InLog(s.logs, slot)
      ensures exists i :: 0 <= i < |s.sales.outbox| && FromRow(s.logs, slot, s.sales.outbox[i])
    {
      var i := SlotRow(s, slot);
      assert FromRow(s.logs, slot, s.sales.outbox[i]);
    }
  }

  /** The message of the slot is the row's, field by field, and carries the row's event. */
  ghost predicate FromRow(logs: Logs, slot: Slot, row: OutboxRow)
    requires InLog(logs, slot) && RowOk(row)
  {
    var m := MessageAt(logs, slot);
    && m.topic == slot.at.topic == row.topic && m.key == row.orderId && m.value == row.payload
    && m.headers == [Header("event-type", row.eventType.Name()), Header("order-id", row.orderId)]
    && DecodedAt(logs, slot) == Parsed(EventIn(row))
  }

  /** The OrderCreated row of an order is the first of its rows. */
  ghost predicate CreatedFirst(rows: seq<OutboxRow>) {
    forall i, j :: 0 <= i < j < |rows| && rows[i].orderId == rows[j].orderId ==> rows[j].eventType.Terminal()
  }

  lemma {:induction false} PendingCreatedFirst(outbox: seq<OutboxRow>)
    requires CreatedFirst(outbox)
    ensures CreatedFirst(PendingRows(outbox))
  {
    if outbox != [] {
      var n := |outbox| - 1;
      PendingCreatedFirst(outbox[..n]);
      forall i | 0 <= i < |PendingRows(outbox[..n])| ensures PendingRows(outbox[..n])[i] in outbox[..n] {
        PendingMember(outbox[..n], PendingRows(outbox[..n])[i]);
      }
    }
  }

  lemma CreatedFirstStep(s: Sales, a: Action)
    requires RowsOk(s) && RequestsOk(s) && CreatedFirst(s.outbox) && a.OfSales() && SalesEnabled(s, a)
    ensures CreatedFirst(SalesEffect(s, a).outbox)
  {
    if a.CreateOrder? || a.WriteOrder? {
      var outbox' := SalesEffect(s, a).outbox;
      assert outbox'[..|s.outbox|] == s.outbox;
    }
  }

  /** In the order of commits, all rows or those still PENDING, an order's OrderCreated is its first row. */
  lemma {:induction false} CreationQueuedFirst(acts: seq<Action>)
    ensures CreatedFirst(Exec(INIT, acts).sales.outbox)
    ensures CreatedFirst(PendingRows(Exec(INIT, acts).sales.outbox))
  {
    if acts != [] {
      var prefix, last := acts[..|acts| - 1], acts[|acts| - 1];
      CreationQueuedFirst(prefix);
      OrderInvHolds(prefix);
      if Enabled(Exec(INIT, prefix), last) && last.OfSales() {
        CreatedFirstStep(Exec(INIT, prefix).sales, last);
      }
    }
    PendingCreatedFirst(Exec(INIT, acts).sales.outbox);
  }

  /** The OrderCreated row of an order is older than its other rows. */
  ghost predicate CreatedOldest(rows: seq<OutboxRow>) {
    forall a, b :: a in rows && b in rows && a.orderId == b.orderId && !a.eventType.Terminal() && b.eventType.Terminal()
      ==> a.createdAt < b.createdAt
  }

  /** Of two rows of one order sent by age, the later is not the OrderCreated row. */
  lemma LaterIsTerminal(outbox: seq<OutboxRow>, a: OutboxRow, b: OutboxRow)
    requires CreatedFirst(outbox) && CreatedOldest(outbox) && a in outbox && b in outbox
    requires a.orderId == b.orderId && a.id != b.id && a.createdAt <= b.createdAt
    ensures b.eventType.Terminal()
  {
    var p :| 0 <= p < |outbox| && outbox[p] == a;
    var q :| 0 <= q < |outbox| && outbox[q] == b;
    if q < p {
      assert outbox[p].eventType.Terminal();
    }
  }

  /** The order and the time of one transaction that writes a row. */
  datatype Stamp = Stamp(orderId: OrderId, time: int)

  /** The clock readings of a run's transactions, in the order of commits. */
  ghost function Stamps(acts: seq<Action>): seq<Stamp> {
    if acts == [] then []
    else
      var prefix, last := acts[..|acts| - 1], acts[|acts| - 1];
      var s := Exec(INIT, prefix);
      Stamps(prefix) +
      if !Enabled(s, last) then []
      else if last.CreateOrder? then [Stamp(last.order.id, last.rowTime)]
      else if last.WriteOrder? then [Stamp(s.sales.requests[last.request].order.id, last.rowTime)]
      else []
  }

  ghost predicate Stamped(outbox: seq<OutboxRow>, stamps: seq<Stamp>) {
    && |outbox| == |stamps|
    && forall i :: 0 <= i < |outbox| ==> outbox[i].orderId == stamps[i].orderId && outbox[i].createdAt == stamps[i].time
  }

  /** The rows of the outbox bear the times of the transactions that wrote them. */
  lemma {:induction false} RowsAreStamped(acts: seq<Action>)
    ensures Stamped(Exec(INIT, acts).sales.outbox, Stamps(acts))
  {
    if acts != [] {
      RowsAreStamped(acts[..|acts| - 1]);
    }
  }

  /** With a clock that moves on between any two transactions, the rows are in order of creation. */
  lemma RisingTimes(acts: seq<Action>)
    requires forall i, j :: 0 <= i < j < |Stamps(acts)| ==> Stamps(acts)[i].time < Stamps(acts)[j].time
    ensures Relaying.Increasing(Exec(INIT, acts).sales.outbox)
  {
    RowsAreStamped(acts);
  }

  /** The clock moves on between two transactions of one order. */
  ghost predicate OrderTimesRise(stamps: seq<Stamp>) {
    forall i, j :: 0 <= i < j < |stamps| && stamps[i].orderId == stamps[j].orderId ==> stamps[i].time < stamps[j].time
  }

  lemma RisingIsOldest(outbox: seq<OutboxRow>, stamps: seq<Stamp>)
    requires Stamped(outbox, stamps) && OrderTimesRise(stamps) && CreatedFirst(outbox)
    ensures CreatedOldest(outbox)
  {
    forall a, b | a in outbox && b in outbox && a.orderId == b.orderId
                  && !a.eventType.Terminal() && b.eventType.Terminal()
      ensures a.createdAt < b.createdAt
    {
      var i :| 0 <= i < |outbox| && outbox[i] == a;
      var j :| 0 <= j < |outbox| && outbox[j] == b;
      assert i < j;
    }
  }

  /** What successful polling publishes, cycle upon cycle, begins for each order with its OrderCreated, as long
      as the clock moves on between the transactions of that order; the times of different orders do not
      matter. The logs are those Relaying.Relay.Start leaves after its batches. */
  lemma CreationPublishedFirst(acts: seq<Action>, io: nat -> Relaying.CycleIo, limit: nat,
                               batches: seq<seq<OutboxRow>>, pending: seq<OutboxRow>)
    returns (postings: seq<Relaying.Posting>)
    requires OrderTimesRise(Stamps(acts)) && Relaying.GoodUntil(io, |batches|)
    requires Relaying.Progress(io, |batches|, limit, PendingRows(Exec(INIT, acts).sales.outbox),
                               pending, Relaying.Concat(batches))
    ensures var logs := Exec(INIT, acts).logs;
            forall at :: Log(Relaying.PublishCycles(logs, batches, io), at)
                         == Log(logs, at) + Relaying.PostedTo(postings, at)
    ensures CreatedFirst(Relaying.RowsOf(postings))
  {
    var outbox, published := Exec(INIT, acts).sales.outbox, Relaying.Concat(batches);
    CreationQueuedFirst(acts);
    RowsAreStamped(acts);
    RisingIsOldest(outbox, Stamps(acts));
    postings := Relaying.CyclesPost(Exec(INIT, acts).logs, batches, io);
    PublishedCreatedFirst(outbox, pending, published, Relaying.Capacity(|batches|, limit));
  }

  lemma PublishedCreatedFirst(outbox: seq<OutboxRow>, pending: seq<OutboxRow>, published: seq<OutboxRow>, n: nat)
    requires CreatedFirst(outbox) && CreatedOldest(outbox)
    requires Relaying.Drained(PendingRows(outbox), pending, published, n)
    ensures CreatedFirst(published)
  {
    forall i, j | 0 <= i < j < |published| && published[i].orderId == published[j].orderId
      ensures published[j].eventType.Terminal()
    {
      Relaying.SplitMember(PendingRows(outbox), published, pending, published[i]);
      Relaying.SplitMember(PendingRows(outbox), published, pending, published[j]);
      PendingMember(outbox, published[i]);
      PendingMember(outbox, published[j]);
      LaterIsTerminal(outbox, published[i], published[j]);
    }
  }

  lemma {:induction false} ContinuesTransitive(a: Sales, b: Sales, c: Sales)
    requires Continues(a, b) && Continues(b, c)
    ensures Continues(a, c)
  {
    forall i | 0 <= i < |a.outbox|
      ensures SameRow(a.outbox[i], c.outbox[i]) && (a.outbox[i].status == RowSent ==> c.outbox[i].status == RowSent)
    {
      assert SameRow(a.outbox[i], b.outbox[i]) && SameRow(b.outbox[i], c.outbox[i]);
    }
  }

  lemma GrowsTransitive(a: Logs, b: Logs, c: Logs)
    requires Grows(a, b) && Grows(b, c)
    ensures Grows(a, c)
  {
    forall at ensures Log(a, at) <= Log(c, at) {
      assert Log(a, at) <= Log(b, at) <= Log(c, at);
    }
  }

  lemma StepEndures(s: State, a: Action)
    requires OrderInv(s.sales, s.logs)
    ensures Continues(s.sales, Apply(s, a).sales) && Grows(s.logs, Apply(s, a).logs)
  {
    if Enabled(s, a) && a.OfSales() {
      SalesContinue(s.sales, a);
      SalesGrowLogs(s.sales, s.logs, a);
    }
  }

  /** However a run goes on, no order disappears or changes anything but its status, no outbox row
      disappears, changes its event or falls back from SENT to PENDING, and no log loses a message. */
  lemma {:induction false} OrdersAndRowsEndure(acts: seq<Action>, more: seq<Action>)
    ensures Continues(Exec(INIT, acts).sales, Exec(INIT, acts + more).sales)
    ensures Grows(Exec(INIT, acts).logs, Exec(INIT, acts + more).logs)
  {
    ExecAppend(INIT, acts, more);
    var s := Exec(INIT, acts);
    if more != [] {
      var rest, last := more[..|more| - 1], more[|more| - 1];
      OrdersAndRowsEndure(acts, rest);
      ExecAppend(INIT, acts, rest);
      OrderInvHolds(acts + rest);
      var mid := Exec(s, rest);
      StepEndures(mid, last);
      ContinuesTransitive(s.sales, mid.sales, Apply(mid, last).sales);
      GrowsTransitive(s.logs, mid.logs, Apply(mid, last).logs);
    }
  }

  /** Offset-commit safety: below a committed offset the handler succeeded, or the message was skipped
      because a success of the same key was recorded, or a DLQ send was attempted. Offsets whose Save
      failed and that a later commit passed over are no exception. */
  lemma OffsetCommitSafety(acts: seq<Action>, slot: Slot)
    requires slot.offset < Committed(Exec(INIT, acts).office, slot.at)
    ensures
      var s := Exec(INIT, acts);
      && InLog(s.logs, slot)
      && (slot in s.office.done
          || (slot in s.office.skipped && KnownSuccess(s.office, s.logs, KeyAt(s.logs, slot)))
          || Buried(s.office, slot))
  {
    DeliveryInvHolds(acts);
    CommittedSettled(Exec(INIT, acts).office, Exec(INIT, acts).logs, slot);
  }

  /** Commits are cumulative but never go back. */
  lemma CommitsAdvance(acts: seq<Action>, a: Action, at: Partition)
    ensures Committed(Exec(INIT, acts).office, at) <= Committed(Exec(INIT, acts + [a]).office, at)
  {
    ExecSnoc(INIT, acts, a);
    DeliveryInvHolds(acts);
    var s := Exec(INIT, acts);
    if Enabled(s, a) && a.Commit? {
      var slot := PhaseOf(s.office, a.topic).slot;
      assert Committed(s.office, slot.at) <= Position(s.office, slot.at);
    }
  }

  /** Whatever the interleaving, an invoice is its order's: same total, a payment recorded only with the
      time of a committed OrderPaid row, a cancellation only with an OrderCancelled row. */
  lemma InvoicesComeFromOrders(acts: seq<Action>, o: OrderId)
    ensures
      var s := Exec(INIT, acts);
      o in s.office.invoices ==> InvoiceOk(s.sales, o, s.office.invoices[o])
  {
    InvHolds(acts);
  }

  ghost predicate AllPriced(orders: map<OrderId, Order>) {
    forall o :: o in orders ==> Priced(orders[o])
  }

  lemma PricedStep(s: Sales, a: Action)
    requires AllPriced(s.orders) && RequestsOk(s) && a.OfSales() && SalesEnabled(s, a)
    ensures AllPriced(SalesEffect(s, a).orders)
  {
    if a.WriteOrder? {
      var order := s.requests[a.request].order;
      assert Priced(s.orders[order.id]);
    }
  }

  /** In every reachable state every order has valid items and their total in US cents. */
  lemma {:induction false} OrdersArePriced(acts: seq<Action>, o: OrderId)
    requires o in Exec(INIT, acts).sales.orders
    ensures
      var order := Exec(INIT, acts).sales.orders[o];
      ValidItems(order.items) && Total(order.items) == Ok(order.total.amount) && order.total.currency == "USD"
  {
    AllPricedHolds(acts);
  }

  lemma {:induction false} AllPricedHolds(acts: seq<Action>)
    ensures AllPriced(Exec(INIT, acts).sales.orders)
  {
    if acts != [] {
      var prefix, last := acts[..|acts| - 1], acts[|acts| - 1];
      AllPricedHolds(prefix);
      OrderInvHolds(prefix);
      if Enabled(Exec(INIT, prefix), last) && last.OfSales() {
        PricedStep(Exec(INIT, prefix).sales, last);
      }
    }
  }

  // ----- At most one terminal event -----

  lemma {:induction false} LastTypeRow(outbox: seq<OutboxRow>, o: OrderId)
    requires LastType(outbox, o).Some?
    ensures HasType(outbox, o, LastType(outbox, o).value)
  {
    var n := |outbox| - 1;
    if outbox[n].orderId != o {
      LastTypeRow(outbox[..n], o);
      var i :| 0 <= i < n && outbox[..n][i].orderId == o && outbox[..n][i].eventType == LastType(outbox, o).value;
      assert outbox[i].orderId == o && outbox[i].eventType == LastType(outbox, o).value;
    }
  }

  lemma SecondTerminal(outbox: seq<OutboxRow>, o: OrderId, status: OrderStatus, row: OutboxRow)
    requires status != StatusCreated && LastType(outbox, o) == Some(EventOf(status))
    requires row.orderId == o && row.eventType.Terminal()
    ensures !OneTerminal(outbox + [row])
  {
    LastTypeRow(outbox, o);
    var i :| 0 <= i < |outbox| && outbox[i].orderId == o && outbox[i].eventType == EventOf(status);
    assert (outbox + [row])[i] == outbox[i] && (outbox + [row])[|outbox|] == row;
  }

  /** The transaction of MarkOrderPaid or CancelOrder commits over an order that is still CREATED. */
  ghost predicate FreshWrite(s: Sales, a: Action) {
    (a.WriteOrder? && a.request in s.requests && s.requests[a.request].order.id in s.orders) ==>
      s.orders[s.requests[a.request].order.id].status == StatusCreated
  }

  ghost predicate FreshRun(acts: seq<Action>) {
    acts != [] ==>
      && FreshRun(acts[..|acts| - 1])
      && var s := Exec(INIT, acts[..|acts| - 1]);
         Enabled(s, acts[|acts| - 1]) ==> FreshWrite(s.sales, acts[|acts| - 1])
  }

  /** A write that is not fresh adds a second terminal row. */
  lemma StaleWriteDuplicates(s: Sales, a: Action)
    requires OrdersOk(s) && RequestsOk(s) && a.OfSales() && SalesEnabled(s, a) && !FreshWrite(s, a)
    ensures !OneTerminal(SalesEffect(s, a).outbox)
  {
    var q := s.requests[a.request];
    var row := NewRow(a.rowId, EventFor(q.order, q.target, a.eventTime), a.rowTime);
    SecondTerminal(s.outbox, q.order.id, s.orders[q.order.id].status, row);
  }

  lemma OneTerminalBefore(s: Sales, s': Sales)
    requires Continues(s, s') && OneTerminal(s'.outbox)
    ensures OneTerminal(s.outbox)
  {
    forall i, j | 0 <= i < j < |s.outbox| && s.outbox[i].eventType.Terminal() && s.outbox[j].eventType.Terminal()
      ensures s.outbox[i].orderId != s.outbox[j].orderId
    {
      assert SameRow(s.outbox[i], s'.outbox[i]) && SameRow(s.outbox[j], s'.outbox[j]);
    }
  }

  lemma FreshTransact(s: Sales, order: Order, row: OutboxRow)
    requires RowsOk(s) && OneTerminal(s.outbox) && row.orderId == order.id
    requires order.id in s.orders ==> s.orders[order.id].status == StatusCreated
    ensures OneTerminal(Transact(s, order, row).outbox)
  {
    forall i | 0 <= i < |s.outbox| && s.outbox[i].eventType.Terminal()
      ensures (s.outbox + [row])[i] == s.outbox[i] && s.outbox[i].orderId != order.id
    {
    }
  }

  lemma FreshStep(s: Sales, a: Action)
    requires RowsOk(s) && RequestsOk(s) && OneTerminal(s.outbox)
    requires a.OfSales() && SalesEnabled(s, a) && FreshWrite(s, a)
    ensures OneTerminal(SalesEffect(s, a).outbox)
  {
    match a {
      case CreateOrder(order, rowId, rowTime) =>
        FreshTransact(s, order, NewRow(rowId, Creation(order), rowTime));
      case WriteOrder(r, eventTime, rowId, rowTime) =>
        var q := s.requests[r];
        FreshTransact(s, Outcome(q), NewRow(rowId, EventFor(q.order, q.target, eventTime), rowTime));
      case _ =>
    }
  }

  /** At most one terminal event is ever written for an order if and only if every transaction of
      MarkOrderPaid and CancelOrder committed over an order that was still CREATED. */
  lemma {:induction false} OneTerminalIffFresh(acts: seq<Action>)
    ensures OneTerminal(Exec(INIT, acts).sales.outbox) <==> FreshRun(acts)
  {
    if acts != [] {
      var prefix, last := acts[..|acts| - 1], acts[|acts| - 1];
      OneTerminalIffFresh(prefix);
      OrderInvHolds(prefix);
      OneTerminalStep(Exec(INIT, prefix), last);
    }
  }

  lemma OneTerminalStep(s: State, a: Action)
    requires OrderInv(s.sales, s.logs)
    ensures OneTerminal(Apply(s, a).sales.outbox)
            <==> OneTerminal(s.sales.outbox) && (Enabled(s, a) ==> FreshWrite(s.sales, a))
  {
    if Enabled(s, a) && a.OfSales() {
      if OneTerminal(SalesEffect(s.sales, a).outbox) {
        StepEndures(s, a);
        OneTerminalBefore(s.sales, SalesEffect(s.sales, a));
      }
      if !FreshWrite(s.sales, a) {
        StaleWriteDuplicates(s.sales, a);
      } else if OneTerminal(s.sales.outbox) {
        FreshStep(s.sales, a);
      }
    }
  }

  // ----- The state machine of an order -----

  /** The transaction commits over an order that is still CREATED, or already has the status it writes. */
  ghost predicate KeepsWrite(s: Sales, a: Action) {
    (a.WriteOrder? && a.request in s.requests && s.requests[a.request].order.id in s.orders) ==>
      var q := s.requests[a.request];
      s.orders[q.order.id].status == StatusCreated || s.orders[q.order.id].status == q.target
  }

  ghost predicate KeepsRun(acts: seq<Action>) {
    acts != [] ==>
      && KeepsRun(acts[..|acts| - 1])
      && var s := Exec(INIT, acts[..|acts| - 1]);
         Enabled(s, acts[|acts| - 1]) ==> KeepsWrite(s.sales, acts[|acts| - 1])
  }

  /** From CREATED to PAID or CANCELLED, and never out of either. */
  ghost predicate LegalMove(s: Sales, s': Sales) {
    forall o :: o in s.orders ==>
      o in s'.orders && (s.orders[o].status != StatusCreated ==> s'.orders[o].status == s.orders[o].status)
  }

  ghost predicate LegalRun(acts: seq<Action>) {
    acts != [] ==>
      && LegalRun(acts[..|acts| - 1])
      && LegalMove(Exec(INIT, acts[..|acts| - 1]).sales, Exec(INIT, acts).sales)
  }

  /** Writing one order is legal exactly if its own move is. */
  lemma LegalWrite(s: Sales, s': Sales, order: Order)
    requires order.id in s.orders && s'.orders == s.orders[order.id := order]
    ensures LegalMove(s, s')
            <==> s.orders[order.id].status == StatusCreated || s.orders[order.id].status == order.status
  {
    assert order.id in s'.orders;
  }

  lemma LegalRest(s: Sales, a: Action)
    requires a.OfSales() && SalesEnabled(s, a) && !a.WriteOrder?
    ensures LegalMove(s, SalesEffect(s, a))
  {
  }

  lemma LegalIffKeeps(s: State, a: Action)
    requires RequestsOk(s.sales)
    ensures LegalMove(s.sales, Apply(s, a).sales) <==> (Enabled(s, a) ==> KeepsWrite(s.sales, a))
  {
    if a.OfSales() && Enabled(s, a) {
      if a.WriteOrder? {
        LegalWrite(s.sales, SalesEffect(s.sales, a), Outcome(s.sales.requests[a.request]));
      } else {
        LegalRest(s.sales, a);
      }
    }
  }

  /** A write over the other terminal status makes a conflict ... */
  lemma ConflictingWrite(outbox: seq<OutboxRow>, o: OrderId, status: OrderStatus, row: OutboxRow)
    requires status != StatusCreated && LastType(outbox, o) == Some(EventOf(status))
    requires row.orderId == o && row.eventType.Terminal() && row.eventType != EventOf(status)
    ensures !NoConflict(outbox + [row])
  {
    LastTypeRow(outbox, o);
    var i :| 0 <= i < |outbox| && outbox[i].orderId == o && outbox[i].eventType == EventOf(status);
    var outbox' := outbox + [row];
    assert outbox'[i] == outbox[i] && outbox'[|outbox|] == row;
    assert HasType(outbox', o, EventOf(status)) && HasType(outbox', o, row.eventType);
  }

  lemma TypesInserted(outbox: seq<OutboxRow>, row: OutboxRow)
    ensures forall o, t ::
              HasType(outbox + [row], o, t) <==> HasType(outbox, o, t) || (row.orderId == o && row.eventType == t)
  {
    var outbox' := outbox + [row];
    forall o, t | HasType(outbox, o, t) ensures HasType(outbox', o, t) {
      var i :| 0 <= i < |outbox| && outbox[i].orderId == o && outbox[i].eventType == t;
      assert outbox'[i] == outbox[i];
    }
    assert outbox'[|outbox|] == row;
    forall o, t | HasType(outbox', o, t) ensures HasType(outbox, o, t) || (row.orderId == o && row.eventType == t) {
      var i :| 0 <= i < |outbox'| && outbox'[i].orderId == o && outbox'[i].eventType == t;
      assert i < |outbox| ==> outbox[i] == outbox'[i];
    }
  }

  /** ... and a write over CREATED or over its own status does not. */
  lemma HarmlessWrite(s: Sales, o: OrderId, target: OrderStatus, row: OutboxRow)
    requires RowsOk(s) && OrdersOk(s) && NoConflict(s.outbox) && o in s.orders && target != StatusCreated
    requires s.orders[o].status == StatusCreated || s.orders[o].status == target
    requires row.orderId == o && row.eventType == EventOf(target)
    ensures NoConflict(s.outbox + [row])
  {
    TypesInserted(s.outbox, row);
    if s.orders[o].status == StatusCreated {
      forall t: EventType | t.Terminal() ensures !HasType(s.outbox, o, t) {
      }
    } else {
      LastTypeRow(s.outbox, o);
    }
  }

  lemma CreationIsHarmless(outbox: seq<OutboxRow>, row: OutboxRow)
    requires NoConflict(outbox) && row.eventType == OrderCreated
    ensures NoConflict(outbox + [row])
  {
    TypesInserted(outbox, row);
  }

  lemma MarkingIsHarmless(outbox: seq<OutboxRow>, id: string)
    requires NoConflict(outbox)
    ensures NoConflict(MarkSent(outbox, id))
  {
    var marked := MarkSent(outbox, id);
    forall o, t | HasType(marked, o, t) ensures HasType(outbox, o, t) {
      var i :| 0 <= i < |marked| && marked[i].orderId == o && marked[i].eventType == t;
      assert outbox[i].orderId == o && outbox[i].eventType == t;
    }
  }

  lemma HarmlessStep(s: Sales, a: Action)
    requires RowsOk(s) && OrdersOk(s) && RequestsOk(s) && NoConflict(s.outbox)
    requires a.OfSales() && SalesEnabled(s, a) && KeepsWrite(s, a)
    ensures NoConflict(SalesEffect(s, a).outbox)
  {
    match a {
      case CreateOrder(order, rowId, rowTime) => CreationIsHarmless(s.outbox, NewRow(rowId, Creation(order), rowTime));
      case WriteOrder(r, eventTime, rowId, rowTime) =>
        var q := s.requests[r];
        HarmlessWrite(s, q.order.id, q.target, NewRow(rowId, EventFor(q.order, q.target, eventTime), rowTime));
      case RelayMark(_) => MarkingIsHarmless(s.outbox, s.relay.batch[0].id);
      case _ =>
    }
  }

  lemma ConflictStep(s: State, a: Action)
    requires OrderInv(s.sales, s.logs)
    ensures NoConflict(Apply(s, a).sales.outbox)
            <==> NoConflict(s.sales.outbox) && (Enabled(s, a) ==> KeepsWrite(s.sales, a))
  {
    if NoConflict(Apply(s, a).sales.outbox) {
      NoConflictStep(s, a);
    }
    if Enabled(s, a) && a.OfSales() {
      if !KeepsWrite(s.sales, a) {
        var q := s.sales.requests[a.request];
        ConflictingWrite(s.sales.outbox, q.order.id, s.sales.orders[q.order.id].status,
                         NewRow(a.rowId, EventFor(q.order, q.target, a.eventTime), a.rowTime));
      } else if NoConflict(s.sales.outbox) {
        HarmlessStep(s.sales, a);
      }
    }
  }

  /** The documented state machine is kept, no order is both paid and cancelled, and every terminal transaction
      meets an order that is CREATED or already where it is to go: each if and only if the others. The last
      is the guard the transaction lacks. */
  lemma {:induction false} StateMachineIff(acts: seq<Action>)
    ensures NoConflict(Exec(INIT, acts).sales.outbox) <==> KeepsRun(acts)
    ensures LegalRun(acts) <==> KeepsRun(acts)
  {
    if acts != [] {
      var prefix, last := acts[..|acts| - 1], acts[|acts| - 1];
      StateMachineIff(prefix);
      OrderInvHolds(prefix);
      ConflictStep(Exec(INIT, prefix), last);
      LegalIffKeeps(Exec(INIT, prefix), last);
    }
  }

  /** No request reads an order while another request for it is under way. */
  ghost predicate SerialRead(s: Sales, a: Action) {
    a.ReadOrder? ==> forall r :: r in s.requests ==> s.requests[r].order.id != a.id
  }

  ghost predicate SerialRun(acts: seq<Action>) {
    acts != [] ==>
      SerialRun(acts[..|acts| - 1]) && SerialRead(Exec(INIT, acts[..|acts| - 1]).sales, acts[|acts| - 1])
  }

  ghost predicate SerialInv(s: Sales) {
    && (forall r :: r in s.requests ==>
          var o := s.requests[r].order.id;
          o in s.orders && s.orders[o].status == StatusCreated)
    && (forall r, q :: r in s.requests && q in s.requests && r != q ==>
          s.requests[r].order.id != s.requests[q].order.id)
  }

  /** A write finishes the only request for its order; creation concerns no request. */
  lemma SerialTransact(s: Sales, s': Sales, order: Order)
    requires SerialInv(s) && s'.orders == s.orders[order.id := order] && s'.requests.Keys <= s.requests.Keys
    requires forall r :: r in s'.requests ==> s'.requests[r] == s.requests[r] && s.requests[r].order.id != order.id
    ensures SerialInv(s')
  {
  }

  lemma SerialRest(s: Sales, a: Action)
    requires SerialInv(s) && OrdersOk(s) && a.OfSales() && SalesEnabled(s, a) && SerialRead(s, a)
    requires !a.CreateOrder? && !a.WriteOrder?
    ensures SerialInv(SalesEffect(s, a))
  {
  }

  lemma SerialStep(s: Sales, a: Action)
    requires SerialInv(s) && OrdersOk(s) && a.OfSales() && SalesEnabled(s, a) && SerialRead(s, a)
    ensures SerialInv(SalesEffect(s, a)) && FreshWrite(s, a)
  {
    match a {
      case CreateOrder(order, _, _) => SerialTransact(s, SalesEffect(s, a), order);
      case WriteOrder(r, _, _, _) => SerialTransact(s, SalesEffect(s, a), Outcome(s.requests[r]));
      case _ => SerialRest(s, a);
    }
  }

  /** Serving the requests for one order one at a time makes every write fresh. */
  lemma {:induction false} SerialIsFresh(acts: seq<Action>)
    requires SerialRun(acts)
    ensures FreshRun(acts) && SerialInv(Exec(INIT, acts).sales)
  {
    if acts != [] {
      var prefix, last := acts[..|acts| - 1], acts[|acts| - 1];
      SerialIsFresh(prefix);
      OrderInvHolds(prefix);
      var s := Exec(INIT, prefix);
      if Enabled(s, last) && last.OfSales() {
        SerialStep(s.sales, last);
      }
    }
  }

  // ----- Runs that never pay and cancel the same order -----

  function Image(status: OrderStatus): InvoiceStatus {
    match status
    case StatusCreated => InvoicePending
    case StatusPaid => InvoicePaid
    case StatusCancelled => InvoiceCancelled
  }

  /** End-to-end safety with crashes, republication, redelivery, reordering across topics and the reads
      and writes of the three consumers interleaved: an invoice is for its order's total, is PAID only if
      the order is, with the time of an OrderPaid event of the order, and CANCELLED only if the order is.
      With a single terminal event per order that payment is the order's only one. */
  lemma EndToEndSafety(acts: seq<Action>, o: OrderId)
    requires NoConflict(Exec(INIT, acts).sales.outbox) && o in Exec(INIT, acts).office.invoices
    ensures
      var s := Exec(INIT, acts);
      var inv := s.office.invoices[o];
      && o in s.sales.orders && inv.orderId == o && inv.amount == s.sales.orders[o].total
      && inv.createdAt == s.sales.orders[o].createdAt
      && (inv.status != InvoicePending ==> inv.status == Image(s.sales.orders[o].status))
      && (inv.paidAt.Some? <==> inv.status == InvoicePaid)
      && (inv.status == InvoicePaid ==>
            && HasEvent(s.sales.outbox, PaidEvent(o, inv.paidAt.value))
            && (OneTerminal(s.sales.outbox) ==>
                  forall e :: HasEvent(s.sales.outbox, e) && e.orderId == o && e.Type().Terminal() ==>
                    e == PaidEvent(o, inv.paidAt.value)))
  {
    AgreedHolds(acts);
    var s := Exec(INIT, acts);
    var inv := s.office.invoices[o];
    assert InvoiceOk(s.sales, o, inv);
    if inv.paidAt.Some? {
      var e := PaidEvent(o, inv.paidAt.value);
      EventHasType(s.sales.outbox, e);
      TypeIsStatus(s.sales, e);
      if OneTerminal(s.sales.outbox) {
        OnlyTerminal(s.sales, e);
      }
    } else if inv.status == InvoiceCancelled {
      var i :| 0 <= i < |s.sales.outbox| && s.sales.outbox[i].orderId == o
               && s.sales.outbox[i].eventType == OrderCancelled;
    }
  }

  lemma TypeIsStatus(s: Sales, e: Event)
    requires RowsOk(s) && TerminalOk(s) && HasEvent(s.outbox, e) && e.Type().Terminal()
    ensures EventOf(s.orders[e.orderId].status) == e.Type()
  {
  }

  lemma OnlyTerminal(s: Sales, e: Event)
    requires OneTerminal(s.outbox) && HasEvent(s.outbox, e) && e.Type().Terminal()
    ensures forall e' :: HasEvent(s.outbox, e') && e'.orderId == e.orderId && e'.Type().Terminal() ==> e' == e
  {
    forall e' | HasEvent(s.outbox, e') && e'.orderId == e.orderId && e'.Type().Terminal() ensures e' == e {
      EventsAgree(s.outbox, e', e);
    }
  }

  /** With one terminal event per order every step moves every invoice along absent, PENDING, one terminal
      state, so each state is entered at most once however often events are delivered. */
  lemma InvoiceLifeCycle(acts: seq<Action>, a: Action, o: OrderId)
    requires FreshRun(acts)
    ensures Advances(Exec(INIT, acts).office.invoices, Exec(INIT, acts + [a]).office.invoices, o)
  {
    ExecSnoc(INIT, acts, a);
    InvHolds(acts);
    OneTerminalIffFresh(acts);
    var s := Exec(INIT, acts);
    if Enabled(s, a) && !a.OfSales() {
      if a.Put? {
        var i := SlotRow(s, PhaseOf(s.office, a.topic).slot);
        WriteAdvances(s.sales, EventIn(s.sales.outbox[i]), a.invoiceId, s.office.invoices, a.ack, o);
      } else {
        OthersKeepInvoices(s.office, s.logs, a);
      }
    }
  }

  /** No message of the relay is refused; a letter with the invalid-state error is a payment whose invoice
      is already PAID, and never a cancellation. */
  lemma HarmlessDeadLetters(acts: seq<Action>, letter: DeadLetter)
    requires NoConflict(Exec(INIT, acts).sales.outbox) && letter in Exec(INIT, acts).office.letters
    ensures
      var s := Exec(INIT, acts);
      && letter.reason.HandlerFailed? && InLog(s.logs, letter.slot)
      && (letter.reason.error == InvalidState ==>
            var d := DecodedAt(s.logs, letter.slot);
            d.Parsed? && d.event.PaidEvent? && d.event.orderId in s.office.invoices
            && s.office.invoices[d.event.orderId].status == InvoicePaid)
  {
    AgreedHolds(acts);
    var s := Exec(INIT, acts);
    var i :| 0 <= i < |s.office.letters| && s.office.letters[i] == letter;
  }

  // ----- When an event is lost -----

  /** The slot holds an event of this order and type. */
  ghost predicate Carries(logs: Logs, slot: Slot, o: OrderId, t: EventType) {
    && InLog(logs, slot) && DecodedAt(logs, slot).Parsed?
    && DecodedAt(logs, slot).event.orderId == o && DecodedAt(logs, slot).event.Type() == t
  }

  /** Some delivery of the event was handled to success. */
  ghost predicate Handled(s: State, o: OrderId, t: EventType) {
    exists slot :: slot in s.office.done && Carries(s.logs, slot, o, t)
  }

  /** The step writes the event of this order and type, and the acknowledgement is lost. */
  ghost predicate WritesUnheard(s: State, a: Action, o: OrderId, t: EventType) {
    && a.Put? && a.ack.Applied? && Enabled(s, a)
    && Carries(s.logs, PhaseOf(s.office, a.topic).slot, o, t)
    && Written(DecodedAt(s.logs, PhaseOf(s.office, a.topic).slot).event, a.invoiceId, s.office.invoices).Some?
  }

  /** Some write of the event took effect although the database reported an error. */
  ghost predicate Unheard(acts: seq<Action>, o: OrderId, t: EventType) {
    acts != [] &&
    var prefix := acts[..|acts| - 1];
    Unheard(prefix, o, t) || WritesUnheard(Exec(INIT, prefix), acts[|acts| - 1], o, t)
  }

  /** The invoice shows an event of this type. */
  predicate Took(table: Invoices, o: OrderId, t: EventType) {
    o in table &&
    match t
    case OrderCreated => true
    case OrderPaid => table[o].status == InvoicePaid
    case OrderCancelled => table[o].status == InvoiceCancelled
  }

  lemma EffectedTook(e: Event, table: Invoices)
    ensures Effected(e, table) <==> Took(table, e.orderId, e.Type())
  {
  }

  /** A write makes an invoice show what it did not show before only if it is a write of just that. */
  lemma WriteTakes(e: Event, invoiceId: string, table: Invoices, ack: Ack, o: OrderId, t: EventType)
    requires Took(Write(e, invoiceId, table, ack).0, o, t) && !Took(table, o, t)
    ensures e.orderId == o && e.Type() == t && ack.Effective() && Written(e, invoiceId, table).Some?
  {
  }

  lemma HandledEndures(s: State, s': State, o: OrderId, t: EventType)
    requires Handled(s, o, t) && s.office.done <= s'.office.done && Grows(s.logs, s'.logs)
    ensures Handled(s', o, t)
  {
    var slot :| slot in s.office.done && Carries(s.logs, slot, o, t);
    GrownSlot(s.logs, s'.logs, slot);
    assert slot in s'.office.done && Carries(s'.logs, slot, o, t);
  }

  lemma DoneGrows(s: State, a: Action)
    requires OrderInv(s.sales, s.logs)
    ensures s.office.done <= Apply(s, a).office.done && Grows(s.logs, Apply(s, a).logs)
  {
    StepEndures(s, a);
  }

  /** The step that makes an invoice show an event handles that event, or writes it unheard. */
  lemma TakingStep(s: State, a: Action, o: OrderId, t: EventType)
    requires OrderInv(s.sales, s.logs)
    requires Took(Apply(s, a).office.invoices, o, t) && !Took(s.office.invoices, o, t)
    ensures Handled(Apply(s, a), o, t) || WritesUnheard(s, a, o, t)
  {
    if a.Put? {
      var slot := PhaseOf(s.office, a.topic).slot;
      var i := SlotRow(s, slot);
      var e := EventIn(s.sales.outbox[i]);
      WriteTakes(e, a.invoiceId, s.office.invoices, a.ack, o, t);
      assert Carries(s.logs, slot, o, t);
      assert a.ack.Acked? ==> slot in Apply(s, a).office.done;
    } else if !a.OfSales() && Enabled(s, a) {
      OthersKeepInvoices(s.office, s.logs, a);
    }
  }

  /** In every run an invoice shows an event only if it was handled or written unheard ... */
  lemma {:induction false} TookWasWritten(acts: seq<Action>, o: OrderId, t: EventType)
    requires Took(Exec(INIT, acts).office.invoices, o, t)
    ensures Handled(Exec(INIT, acts), o, t) || Unheard(acts, o, t)
  {
    if acts != [] {
      var prefix, last := acts[..|acts| - 1], acts[|acts| - 1];
      var s := Exec(INIT, prefix);
      OrderInvHolds(prefix);
      if Took(s.office.invoices, o, t) {
        TookWasWritten(prefix, o, t);
        if Handled(s, o, t) {
          DoneGrows(s, last);
          HandledEndures(s, Apply(s, last), o, t);
        }
      } else {
        TakingStep(s, last, o, t);
      }
    }
  }

  lemma HandledTook(s: State, o: OrderId, t: EventType)
    requires EffectsOk(s.office, s.logs) && Handled(s, o, t)
    ensures Took(s.office.invoices, o, t)
  {
    var slot :| slot in s.office.done && Carries(s.logs, slot, o, t);
    assert EffectAt(s.office, s.logs, slot);
    EffectedTook(DecodedAt(s.logs, slot).event, s.office.invoices);
  }

  /** What an invoice shows of the outbox stays, step by step. */
  lemma TookEndures(s: State, a: Action, o: OrderId, t: EventType)
    requires OrderInv(s.sales, s.logs) && NoConflict(s.sales.outbox)
    requires Took(s.office.invoices, o, t) && HasType(s.sales.outbox, o, t)
    ensures Took(Apply(s, a).office.invoices, o, t)
  {
    if a.Put? && Enabled(s, a) {
      var i := SlotRow(s, PhaseOf(s.office, a.topic).slot);
      var e := EventIn(s.sales.outbox[i]);
      EventHasType(s.sales.outbox, e);
      WriteKeepsTook(s.sales.outbox, e, a.invoiceId, s.office.invoices, a.ack, o, t);
    } else if !a.OfSales() && Enabled(s, a) {
      OthersKeepInvoices(s.office, s.logs, a);
    }
  }

  lemma WriteKeepsTook(outbox: seq<OutboxRow>, e: Event, invoiceId: string, table: Invoices, ack: Ack,
                       o: OrderId, t: EventType)
    requires NoConflict(outbox) && HasType(outbox, e.orderId, e.Type()) && HasType(outbox, o, t) && Took(table, o, t)
    ensures Took(Write(e, invoiceId, table, ack).0, o, t)
  {
  }

  lemma UnheardTakes(s: State, a: Action, o: OrderId, t: EventType)
    requires OrderInv(s.sales, s.logs) && WritesUnheard(s, a, o, t)
    ensures Took(Apply(s, a).office.invoices, o, t) && HasType(s.sales.outbox, o, t)
  {
    var i := SlotRow(s, PhaseOf(s.office, a.topic).slot);
    EventHasType(s.sales.outbox, EventIn(s.sales.outbox[i]));
  }

  /** ... and an event written unheard shows for good. */
  lemma {:induction false} UnheardTook(acts: seq<Action>, o: OrderId, t: EventType)
    requires NoConflict(Exec(INIT, acts).sales.outbox) && Unheard(acts, o, t)
    ensures Took(Exec(INIT, acts).office.invoices, o, t) && HasType(Exec(INIT, acts).sales.outbox, o, t)
  {
    var prefix, last := acts[..|acts| - 1], acts[|acts| - 1];
    var s := Exec(INIT, prefix);
    OrderInvHolds(prefix);
    NoConflictStep(s, last);
    if Unheard(prefix, o, t) {
      UnheardTook(prefix, o, t);
      TookEndures(s, last, o, t);
    } else {
      UnheardTakes(s, last, o, t);
    }
    StepEndures(s, last);
    ContinuedRows(s.sales, Apply(s, last).sales);
  }

  /** The order's last event. */
  function LastEvent(s: State, o: OrderId): EventType
    requires o in s.sales.orders
  {
    EventOf(s.sales.orders[o].status)
  }

  /** The invoice is the order's image. */
  predicate Mirrored(s: State, o: OrderId)
    requires o in s.sales.orders
  {
    && o in s.office.invoices && s.office.invoices[o].amount == s.sales.orders[o].total
    && s.office.invoices[o].status == Image(s.sales.orders[o].status)
  }

  /** The effect of the order's last event is its image. */
  lemma TookIsMirrored(s: State, o: OrderId)
    requires Inv(s) && TerminalOk(s.sales) && o in s.sales.orders
    ensures Mirrored(s, o) <==> Took(s.office.invoices, o, LastEvent(s, o))
  {
    if o in s.office.invoices {
      var inv := s.office.invoices[o];
      assert InvoiceOk(s.sales, o, inv);
      if inv.status == InvoicePaid {
        TypeIsStatus(s.sales, PaidEvent(o, inv.paidAt.value));
      } else if inv.status == InvoiceCancelled {
        var i :| 0 <= i < |s.sales.outbox| && s.sales.outbox[i].orderId == o
                 && s.sales.outbox[i].eventType == OrderCancelled;
      }
    }
  }

  /** In every reachable state an invoice shows an event exactly if the event was handled or written unheard. */
  lemma TookIffHandled(acts: seq<Action>, o: OrderId, t: EventType)
    requires NoConflict(Exec(INIT, acts).sales.outbox)
    ensures Took(Exec(INIT, acts).office.invoices, o, t) <==> Handled(Exec(INIT, acts), o, t) || Unheard(acts, o, t)
  {
    AgreedHolds(acts);
    var s := Exec(INIT, acts);
    if Took(s.office.invoices, o, t) {
      TookWasWritten(acts, o, t);
    }
    if Handled(s, o, t) {
      HandledTook(s, o, t);
    }
    if Unheard(acts, o, t) {
      UnheardTook(acts, o, t);
    }
  }

  /** In every reachable state, quiescent or not, an order is mirrored if and only if some delivery of its
      last event was handled to success, or wrote the invoice without hearing of it. */
  lemma MirroredIffHandled(acts: seq<Action>, o: OrderId)
    requires NoConflict(Exec(INIT, acts).sales.outbox) && o in Exec(INIT, acts).sales.orders
    ensures var s := Exec(INIT, acts);
            Mirrored(s, o) <==> Handled(s, o, LastEvent(s, o)) || Unheard(acts, o, LastEvent(s, o))
  {
    AgreedHolds(acts);
    TookIsMirrored(Exec(INIT, acts), o);
    TookIffHandled(acts, o, LastEvent(Exec(INIT, acts), o));
  }

  /** The relay has nothing left to send and the consumers have committed every log to its end. */
  ghost predicate Quiescent(s: State) {
    && (forall i :: 0 <= i < |s.sales.outbox| ==> s.sales.outbox[i].status == RowSent)
    && (forall at :: Committed(s.office, at) == |Log(s.logs, at)|)
  }

  /** A dead letter of the slot for a reason that can leave an invoice behind: not found, internal, panic
      or shutdown. */
  ghost predicate Abandoned(b: Office, slot: Slot) {
    exists i :: 0 <= i < |b.letters| && b.letters[i].slot == slot && b.letters[i].reason != HandlerFailed(InvalidState)
  }

  lemma CommittedSettled(b: Office, logs: Logs, slot: Slot)
    requires OffsetsOk(b, logs) && FetchedOk(b) && slot.offset < Committed(b, slot.at)
    ensures InLog(logs, slot) && Settled(b, slot)
  {
    assert Committed(b, slot.at) <= Position(b, slot.at);
  }

  /** A settled slot that was not abandoned shows its event: a skip goes back to a success of the same key,
      and an invalid-state letter to a payment already made. */
  lemma SettledTook(s: State, slot: Slot, o: OrderId, t: EventType)
    requires OrderInv(s.sales, s.logs) && KeysOk(s.office, s.logs) && EffectsOk(s.office, s.logs)
    requires Carries(s.logs, slot, o, t) && Settled(s.office, slot) && !Abandoned(s.office, slot)
    ensures Took(s.office.invoices, o, t)
  {
    var b, e := s.office, DecodedAt(s.logs, slot).event;
    var n := SlotRow(s, slot);
    if slot in b.done {
      assert EffectAt(b, s.logs, slot);
    } else if slot in b.skipped {
      var d :| d in b.done && InLog(s.logs, d) && KeyAt(s.logs, d) == Key(e);
      assert EffectAt(b, s.logs, d);
      var m := SlotRow(s, d);
      KeyDecides(EventIn(s.sales.outbox[m]), e, b.invoices);
    } else {
      var k :| 0 <= k < |b.letters| && b.letters[k].slot == slot;
      assert b.letters[k] in b.letters && b.letters[k].reason == HandlerFailed(InvalidState);
    }
    EffectedTook(e, b.invoices);
  }

  lemma RowSlot(s: Sales, logs: Logs, i: nat) returns (slot: Slot)
    requires RelayOk(s, logs) && i < |s.outbox| && s.outbox[i].status == RowSent
    ensures InLog(logs, slot) && MessageAt(logs, slot) == MessageOf(s.outbox[i])
  {
    assert Published(logs, s.outbox[i]);
    var at: Partition, k: nat :|
      at in logs && at.topic == s.outbox[i].topic && k < |logs[at]| && logs[at][k] == MessageOf(s.outbox[i]);
    slot := Slot(at, k);
  }

  /** Once everything is sent, some slot carries the order's last event. */
  lemma LastEventSent(s: State, o: OrderId) returns (slot: Slot)
    requires OrderInv(s.sales, s.logs) && Quiescent(s) && o in s.sales.orders
    ensures Carries(s.logs, slot, o, LastEvent(s, o))
  {
    LastTypeRow(s.sales.outbox, o);
    var i :| 0 <= i < |s.sales.outbox| && s.sales.outbox[i].orderId == o
             && s.sales.outbox[i].eventType == LastEvent(s, o);
    slot := RowSlot(s.sales, s.logs, i);
  }

  /** When an event is lost: at quiescence an order is not mirrored if and only if no write of its last event
      went unheard and every delivery of it was dead-lettered, for a reason other than an invalid state,
      without ever being handled to success. */
  lemma LostIff(acts: seq<Action>, o: OrderId)
    requires NoConflict(Exec(INIT, acts).sales.outbox) && Quiescent(Exec(INIT, acts))
    requires o in Exec(INIT, acts).sales.orders
    ensures
      var s := Exec(INIT, acts);
      !Mirrored(s, o) <==>
        && !Unheard(acts, o, LastEvent(s, o))
        && forall slot :: Carries(s.logs, slot, o, LastEvent(s, o)) ==>
             slot !in s.office.done && Abandoned(s.office, slot)
  {
    AgreedHolds(acts);
    MirroredIffHandled(acts, o);
    var s := Exec(INIT, acts);
    var t := LastEvent(s, o);
    TookIsMirrored(s, o);
    if !Mirrored(s, o) {
      forall slot | Carries(s.logs, slot, o, t)
        ensures slot !in s.office.done && Abandoned(s.office, slot)
      {
        CommittedSettled(s.office, s.logs, slot);
        if !Abandoned(s.office, slot) {
          SettledTook(s, slot, o, t);
          assert false;
        }
      }
    }
  }

  /** Convergence: at quiescence an order is mirrored as soon as one delivery of its last event was not
      abandoned, or was handled after all. */
  lemma Convergence(acts: seq<Action>, o: OrderId, slot: Slot)
    requires NoConflict(Exec(INIT, acts).sales.outbox) && Quiescent(Exec(INIT, acts))
    requires o in Exec(INIT, acts).sales.orders
    requires
      var s := Exec(INIT, acts);
      Carries(s.logs, slot, o, LastEvent(s, o)) && (!Abandoned(s.office, slot) || slot in s.office.done)
    ensures Mirrored(Exec(INIT, acts), o)
  {
    LostIff(acts, o);
  }

  function PaidTotals(orders: map<OrderId, Order>): map<OrderId, int> {
    map o | o in orders && orders[o].status == StatusPaid :: orders[o].total.amount
  }

  /** Some delivery of the order's last event was not abandoned, or was handled after all. */
  ghost predicate Reached(s: State, o: OrderId)
    requires o in s.sales.orders
  {
    exists slot :: Carries(s.logs, slot, o, LastEvent(s, o)) && (!Abandoned(s.office, slot) || slot in s.office.done)
  }

  /** At quiescence there is a delivery, so an order none of whose deliveries was abandoned is reached. */
  lemma ReachedUnlessAbandoned(s: State, o: OrderId)
    requires OrderInv(s.sales, s.logs) && Quiescent(s) && o in s.sales.orders
    requires forall slot :: Carries(s.logs, slot, o, LastEvent(s, o)) ==> !Abandoned(s.office, slot)
    ensures Reached(s, o)
  {
    var slot := LastEventSent(s, o);
  }

  /** If so for every order, then at quiescence the invoices are those of the orders, state by state, and the
      revenue reported is the sum of the totals of the PAID orders. */
  lemma StatsConverge(acts: seq<Action>)
    requires NoConflict(Exec(INIT, acts).sales.outbox) && Quiescent(Exec(INIT, acts))
    requires forall o :: o in Exec(INIT, acts).sales.orders ==> Reached(Exec(INIT, acts), o)
    ensures
      var s := Exec(INIT, acts);
      && s.office.invoices.Keys == s.sales.orders.Keys
      && Revenue(s.office.invoices) == SumMap(PaidTotals(s.sales.orders))
      && forall status :: WithStatus(s.office.invoices, Image(status))
                          == set o | o in s.sales.orders && s.sales.orders[o].status == status
  {
    var s := Exec(INIT, acts);
    forall o | o in s.sales.orders ensures Mirrored(s, o) {
      var slot :| Carries(s.logs, slot, o, LastEvent(s, o)) && (!Abandoned(s.office, slot) || slot in s.office.done);
      Convergence(acts, o, slot);
    }
    forall o | o in s.office.invoices ensures o in s.sales.orders {
      InvoicesComeFromOrders(acts, o);
    }
    MirroredTables(s.sales.orders, s.office.invoices);
  }

  /** The totals of the orders of which some payment was handled, or written unheard. */
  ghost function PaymentsMade(acts: seq<Action>): map<OrderId, int> {
    var s := Exec(INIT, acts);
    map o | o in s.sales.orders && (Handled(s, o, OrderPaid) || Unheard(acts, o, OrderPaid))
      :: s.sales.orders[o].total.amount
  }

  lemma PaymentMade(acts: seq<Action>, o: OrderId)
    requires NoConflict(Exec(INIT, acts).sales.outbox)
    ensures
      var paid, made := PaidAmounts(Exec(INIT, acts).office.invoices), PaymentsMade(acts);
      (o in paid <==> o in made) && (o in paid ==> paid[o] == made[o])
  {
    var s := Exec(INIT, acts);
    TookIffHandled(acts, o, OrderPaid);
    InvoicesComeFromOrders(acts, o);
    if o in s.office.invoices {
      assert InvoiceOk(s.sales, o, s.office.invoices[o]);
    }
  }

  /** In every reachable state, quiescent or not, the revenue is the sum of just these totals. */
  lemma RevenueIsPayments(acts: seq<Action>)
    requires NoConflict(Exec(INIT, acts).sales.outbox)
    ensures Revenue(Exec(INIT, acts).office.invoices) == SumMap(PaymentsMade(acts))
  {
    var paid, made := PaidAmounts(Exec(INIT, acts).office.invoices), PaymentsMade(acts);
    forall o ensures (o in paid <==> o in made) && (o in paid ==> paid[o] == made[o]) {
      PaymentMade(acts, o);
    }
    assert paid == made;
  }

  lemma MirroredTables(orders: map<OrderId, Order>, invoices: Invoices)
    requires invoices.Keys == orders.Keys
    requires forall o :: o in orders ==>
               invoices[o].amount == orders[o].total && invoices[o].status == Image(orders[o].status)
    ensures PaidAmounts(invoices) == PaidTotals(orders)
    ensures forall status :: WithStatus(invoices, Image(status)) == set o | o in orders && orders[o].status == status
  {
    forall status
      ensures WithStatus(invoices, Image(status)) == set o | o in orders && orders[o].status == status
    {
      forall o | o in orders ensures invoices[o].status == Image(status) <==> orders[o].status == status {
      }
    }
  }

  /** One order, by now PAID, is newly recorded as such and adds its total to the revenue. */
  ghost predicate Earns(orders: map<OrderId, Order>, before: Invoices, after: Invoices, o: OrderId) {
    && o in orders && orders[o].status == StatusPaid
    && Share(before, o, InvoicePaid) == 0 && Share(after, o, InvoicePaid) == 1
    && Revenue(after) == Revenue(before) + orders[o].total.amount
  }

  /** Each step leaves the revenue alone or adds the total of one order newly recorded as PAID. */
  lemma RevenueSteps(acts: seq<Action>, a: Action)
    requires NoConflict(Exec(INIT, acts).sales.outbox)
    ensures
      var s, s' := Exec(INIT, acts), Exec(INIT, acts + [a]);
      || Revenue(s'.office.invoices) == Revenue(s.office.invoices)
      || exists o :: Earns(s.sales.orders, s.office.invoices, s'.office.invoices, o)
  {
    ExecSnoc(INIT, acts, a);
    AgreedHolds(acts);
    var s := Exec(INIT, acts);
    if Enabled(s, a) && !a.OfSales() {
      if a.Put? {
        var i := SlotRow(s, PhaseOf(s.office, a.topic).slot);
        PutRevenue(s.sales, i, s.office.invoices, a.invoiceId, a.ack);
      } else {
        OthersKeepInvoices(s.office, s.logs, a);
      }
    }
  }

  lemma PutRevenue(s: Sales, i: nat, table: Invoices, invoiceId: string, ack: Ack)
    requires RowsOk(s) && NoConflict(s.outbox) && TerminalOk(s) && InvoicesOk(s, table) && i < |s.outbox|
    ensures
      var e := EventIn(s.outbox[i]);
      var table' := Write(e, invoiceId, table, ack).0;
      Revenue(table') == Revenue(table) || Earns(s.orders, table, table', e.orderId)
  {
    var e := EventIn(s.outbox[i]);
    var o := e.orderId;
    var table' := Write(e, invoiceId, table, ack).0;
    assert HasEvent(s.outbox, e);
    if table' != table {
      if o in table && table[o].status != InvoicePending && e.Type().Terminal() {
        TerminalInvoice(s, e, table[o]);
      }
      assert table' == table[o := table'[o]];
      RevenueWrite(table, o, table'[o]);
    }
  }

  /** So the revenue never falls, as long as no order total is negative; totals of orders within the bounds
      of Pricing.TotalError are not. */
  lemma RevenueNeverFalls(acts: seq<Action>, a: Action)
    requires NoConflict(Exec(INIT, acts).sales.outbox)
    requires forall o :: o in Exec(INIT, acts).sales.orders ==> Exec(INIT, acts).sales.orders[o].total.amount >= 0
    ensures Revenue(Exec(INIT, acts).office.invoices) <= Revenue(Exec(INIT, acts + [a]).office.invoices)
  {
    RevenueSteps(acts, a);
  }
}

/** Invariants that tie invoices to orders. The first part holds in every run; the second in runs that
    never pay and cancel the same order. */
module Invoicing {
  import opened Prelude
  import opened Domain
  import opened Dispatch
  import opened Outbox
  import opened Billing
  import opened DedupKey
  import opened Protocol
  import opened OrderSide
  import opened Delivery

  ghost predicate HasEvent(outbox: seq<OutboxRow>, e: Event) {
    exists i :: 0 <= i < |outbox| && RowOk(outbox[i]) && EventIn(outbox[i]) == e
  }

  ghost predicate HasType(outbox: seq<OutboxRow>, o: OrderId, t: EventType) {
    exists i :: 0 <= i < |outbox| && outbox[i].orderId == o && outbox[i].eventType == t
  }

  /** Any message of any log was built from a row of the outbox, decodes to that row's event on that
      row's topic, and is keyed by it. */
  lemma SlotRow(s: State, slot: Slot) returns (i: nat)
    requires OrderInv(s.sales, s.logs) && InLog(s.logs, slot)
    ensures i < |s.sales.outbox| && RowOk(s.sales.outbox[i])
    ensures MessageAt(s.logs, slot) == MessageOf(s.sales.outbox[i]) && slot.at.topic == s.sales.outbox[i].topic
    ensures DecodedAt(s.logs, slot) == Parsed(EventIn(s.sales.outbox[i]))
    ensures KeyAt(s.logs, slot) == Key(EventIn(s.sales.outbox[i]))
    ensures HasEvent(s.sales.outbox, EventIn(s.sales.outbox[i]))
  {
    var m := MessageAt(s.logs, slot);
    assert Produced(s.sales.outbox, slot.at, m);
    i :| 0 <= i < |s.sales.outbox| && MessageOf(s.sales.outbox[i]) == m && s.sales.outbox[i].topic == slot.at.topic;
    RelayKey(s.sales.outbox[i], slot.at.number, slot.offset);
  }

  // ----- Every run -----

  ghost predicate InvoiceOk(s: Sales, o: OrderId, inv: Invoice) {
    && o in s.orders && inv.orderId == o
    && inv.amount == s.orders[o].total && inv.createdAt == s.orders[o].createdAt
    && (inv.status == InvoicePaid ==> inv.paidAt.Some?)
    && (inv.paidAt.Some? ==> inv.status != InvoicePending && HasEvent(s.outbox, PaidEvent(o, inv.paidAt.value)))
    && (inv.status == InvoiceCancelled ==> HasType(s.outbox, o, OrderCancelled))
  }

  ghost predicate InvoicesOk(s: Sales, invoices: Invoices) {
    forall o :: o in invoices ==> InvoiceOk(s, o, invoices[o])
  }

  /** Orders keep their total and creation time, and rows their event, through every step. */
  ghost predicate Continues(s: Sales, s': Sales) {
    && (forall o :: o in s.orders ==> o in s'.orders && SameOrder(s.orders[o], s'.orders[o]))
    && |s.outbox| <= |s'.outbox|
    && (forall i :: 0 <= i < |s.outbox| ==>
          SameRow(s.outbox[i], s'.outbox[i]) && (s.outbox[i].status == RowSent ==> s'.outbox[i].status == RowSent))
  }

  lemma TransactContinues(s: Sales, order: Order, row: OutboxRow)
    requires order.id in s.orders ==> SameOrder(s.orders[order.id], order)
    ensures Continues(s, Transact(s, order, row))
  {
    forall i | 0 <= i < |s.outbox| ensures Transact(s, order, row).outbox[i] == s.outbox[i] {
    }
  }

  lemma SalesContinue(s: Sales, a: Action)
    requires RequestsOk(s) && a.OfSales() && SalesEnabled(s, a)
    ensures Continues(s, SalesEffect(s, a))
  {
    match a {
      case CreateOrder(order, rowId, rowTime) =>
        TransactContinues(s, order, NewRow(rowId, Creation(order), rowTime));
      case WriteOrder(r, eventTime, rowId, rowTime) =>
        var q := s.requests[r];
        TransactContinues(s, Outcome(q), NewRow(rowId, EventFor(q.order, q.target, eventTime), rowTime));
      case _ =>
    }
  }

  lemma ContinuedRows(s: Sales, s': Sales)
    requires Continues(s, s')
    ensures forall e :: HasEvent(s.outbox, e) ==> HasEvent(s'.outbox, e)
    ensures forall o, t :: HasType(s.outbox, o, t) ==> HasType(s'.outbox, o, t)
  {
    forall e | HasEvent(s.outbox, e) ensures HasEvent(s'.outbox, e) {
      var i :| 0 <= i < |s.outbox| && RowOk(s.outbox[i]) && EventIn(s.outbox[i]) == e;
      assert RowOk(s'.outbox[i]) && EventIn(s'.outbox[i]) == e;
    }
    forall o, t | HasType(s.outbox, o, t) ensures HasType(s'.outbox, o, t) {
      var i :| 0 <= i < |s.outbox| && s.outbox[i].orderId == o && s.outbox[i].eventType == t;
      assert s'.outbox[i].orderId == o && s'.outbox[i].eventType == t;
    }
  }

  /** Writing an event of the outbox into a good table gives a good table. */
  lemma WriteOk(s: Sales, i: nat, invoiceId: string, table: Invoices, ack: Ack)
    requires RowsOk(s) && InvoicesOk(s, table) && i < |s.outbox| && RowOk(s.outbox[i])
    ensures InvoicesOk(s, Write(EventIn(s.outbox[i]), invoiceId, table, ack).0)
  {
    var e := EventIn(s.outbox[i]);
    assert HasEvent(s.outbox, e) && HasType(s.outbox, e.orderId, e.Type());
    assert e.CreatedEvent? ==> e == Creation(s.orders[e.orderId]);
  }

  /** Only Put writes invoices. */
  lemma OthersKeepInvoices(b: Office, logs: Logs, a: Action)
    requires !a.OfSales() && !a.Put? && OfficeEnabled(b, logs, a)
    ensures OfficeEffect(b, logs, a).invoices == b.invoices
  {
  }

  lemma InvoicesContinue(s: Sales, s': Sales, table: Invoices)
    requires Continues(s, s') && InvoicesOk(s, table)
    ensures InvoicesOk(s', table)
  {
    ContinuedRows(s, s');
  }

  lemma InvoicesStep(s: State, a: Action)
    requires OrderInv(s.sales, s.logs) && InvoicesOk(s.sales, s.office.invoices)
    ensures InvoicesOk(Apply(s, a).sales, Apply(s, a).office.invoices)
  {
    if Enabled(s, a) {
      if a.OfSales() {
        SalesContinue(s.sales, a);
        InvoicesContinue(s.sales, SalesEffect(s.sales, a), s.office.invoices);
      } else if a.Put? {
        var i := SlotRow(s, PhaseOf(s.office, a.topic).slot);
        WriteOk(s.sales, i, a.invoiceId, s.office.invoices, a.ack);
      } else {
        OthersKeepInvoices(s.office, s.logs, a);
      }
    }
  }

  ghost predicate Inv(s: State) {
    OrderInv(s.sales, s.logs) && DeliveryInv(s.office, s.logs) && InvoicesOk(s.sales, s.office.invoices)
  }

  lemma Step(s: State, a: Action)
    requires Inv(s)
    ensures Inv(Apply(s, a))
  {
    OrderStep(s, a);
    DeliveryStep(s, a);
    InvoicesStep(s, a);
  }

  lemma {:induction false} InvHolds(acts: seq<Action>)
    ensures Inv(Exec(INIT, acts))
  {
    if acts != [] {
      InvHolds(acts[..|acts| - 1]);
      Step(Exec(INIT, acts[..|acts| - 1]), acts[|acts| - 1]);
    }
  }

  // ----- Runs in which no order is both paid and cancelled -----

  /** No order has both an OrderPaid and an OrderCancelled row. */
  ghost predicate NoConflict(outbox: seq<OutboxRow>) {
    forall o :: HasType(outbox, o, OrderPaid) ==> !HasType(outbox, o, OrderCancelled)
  }

  /** At most one terminal event was ever written for an order. */
  ghost predicate OneTerminal(outbox: seq<OutboxRow>) {
    forall i, j :: 0 <= i < j < |outbox| && outbox[i].eventType.Terminal() && outbox[j].eventType.Terminal()
      ==> outbox[i].orderId != outbox[j].orderId
  }

  lemma OneTerminalNoConflict(outbox: seq<OutboxRow>)
    requires OneTerminal(outbox)
    ensures NoConflict(outbox)
  {
    forall o | HasType(outbox, o, OrderPaid) ensures !HasType(outbox, o, OrderCancelled) {
      var i :| 0 <= i < |outbox| && outbox[i].orderId == o && outbox[i].eventType == OrderPaid;
      forall j | 0 <= j < |outbox| && j != i && outbox[j].eventType.Terminal() ensures outbox[j].orderId != o {
      }
    }
  }

  lemma NoConflictBefore(s: Sales, s': Sales)
    requires Continues(s, s') && NoConflict(s'.outbox)
    ensures NoConflict(s.outbox)
  {
    ContinuedRows(s, s');
  }

  /** A terminal row says what its order's status is. */
  ghost predicate TerminalOk(s: Sales) {
    forall i :: 0 <= i < |s.outbox| && s.outbox[i].eventType.Terminal() && s.outbox[i].orderId in s.orders
      ==> EventOf(s.orders[s.outbox[i].orderId].status) == s.outbox[i].eventType
  }

  /** The handler that returned nil for a slot has left its effect in the invoice table. */
  ghost predicate EffectAt(b: Office, logs: Logs, slot: Slot) {
    InLog(logs, slot) && DecodedAt(logs, slot).Parsed? && Effected(DecodedAt(logs, slot).event, b.invoices)
  }

  /** An invalid-state failure belongs to a payment that has had its effect. */
  ghost predicate PaidAlready(b: Office, logs: Logs, slot: Slot) {
    EffectAt(b, logs, slot) && DecodedAt(logs, slot).event.PaidEvent?
  }

  ghost predicate EffectsOk(b: Office, logs: Logs) {
    && (forall d :: d in b.done ==> EffectAt(b, logs, d))
    && (forall t :: PhaseOf(b, t).Failed? && PhaseOf(b, t).error == InvalidState
          ==> PaidAlready(b, logs, PhaseOf(b, t).slot))
    && (forall l :: l in b.letters ==>
          l.reason.HandlerFailed? && (l.reason.error == InvalidState ==> PaidAlready(b, logs, l.slot)))
  }

  ghost predicate Agreed(s: State) { TerminalOk(s.sales) && EffectsOk(s.office, s.logs) }

  lemma SameTerminal(outbox: seq<OutboxRow>, i: nat, j: nat)
    requires NoConflict(outbox) && i < |outbox| && j < |outbox| && outbox[i].orderId == outbox[j].orderId
    requires outbox[i].eventType.Terminal() && outbox[j].eventType.Terminal()
    ensures outbox[i].eventType == outbox[j].eventType
  {
    assert HasType(outbox, outbox[i].orderId, outbox[i].eventType);
    assert HasType(outbox, outbox[j].orderId, outbox[j].eventType);
  }

  lemma TransactTerminal(s: Sales, order: Order, row: OutboxRow)
    requires RowsOk(s) && TerminalOk(s) && row.orderId == order.id && row.eventType == EventOf(order.status)
    requires order.id in s.orders ==> row.eventType.Terminal()
    requires NoConflict(s.outbox + [row])
    ensures TerminalOk(Transact(s, order, row))
  {
    var outbox' := s.outbox + [row];
    forall i | 0 <= i < |s.outbox| && s.outbox[i].eventType.Terminal()
      ensures outbox'[i] == s.outbox[i] && (s.outbox[i].orderId == order.id ==> s.outbox[i].eventType == row.eventType)
    {
      if s.outbox[i].orderId == order.id {
        SameTerminal(outbox', i, |s.outbox|);
      }
    }
  }

  lemma TerminalStep(s: Sales, a: Action)
    requires RowsOk(s) && RequestsOk(s) && TerminalOk(s) && a.OfSales() && SalesEnabled(s, a)
    requires NoConflict(SalesEffect(s, a).outbox)
    ensures TerminalOk(SalesEffect(s, a))
  {
    match a {
      case CreateOrder(order, rowId, rowTime) =>
        TransactTerminal(s, order, NewRow(rowId, Creation(order), rowTime));
      case WriteOrder(r, eventTime, rowId, rowTime) =>
        var q := s.requests[r];
        TransactTerminal(s, Outcome(q), NewRow(rowId, EventFor(q.order, q.target, eventTime), rowTime));
      case RelayMark(ack) =>
        MarkedRows(s.outbox, s.relay.batch[0].id);
      case _ =>
    }
  }

  lemma EventHasType(outbox: seq<OutboxRow>, e: Event)
    requires HasEvent(outbox, e)
    ensures HasType(outbox, e.orderId, e.Type())
  {
    var i :| 0 <= i < |outbox| && RowOk(outbox[i]) && EventIn(outbox[i]) == e;
    assert outbox[i].orderId == e.orderId && outbox[i].eventType == e.Type();
  }

  /** Two terminal events of one order are of one type ... */
  lemma TypesAgree(outbox: seq<OutboxRow>, e: Event, e': Event)
    requires NoConflict(outbox) && HasEvent(outbox, e) && HasEvent(outbox, e')
    requires e.orderId == e'.orderId && e.Type().Terminal() && e'.Type().Terminal()
    ensures e.Type() == e'.Type()
  {
    EventHasType(outbox, e);
    EventHasType(outbox, e');
  }

  /** ... and, where there is only one, the same event. */
  lemma EventsAgree(outbox: seq<OutboxRow>, e: Event, e': Event)
    requires OneTerminal(outbox) && HasEvent(outbox, e) && HasEvent(outbox, e')
    requires e.orderId == e'.orderId && e.Type().Terminal() && e'.Type().Terminal()
    ensures e == e'
  {
    var i :| 0 <= i < |outbox| && RowOk(outbox[i]) && EventIn(outbox[i]) == e;
    var j :| 0 <= j < |outbox| && RowOk(outbox[j]) && EventIn(outbox[j]) == e';
    assert i == j;
  }

  /** A write out of the outbox undoes no effect of the outbox ... */
  lemma WriteKeepsEffects(outbox: seq<OutboxRow>, e: Event, e': Event, invoiceId: string, table: Invoices, ack: Ack)
    requires NoConflict(outbox) && HasEvent(outbox, e) && HasEvent(outbox, e')
    requires Effected(e', table)
    ensures Effected(e', Write(e, invoiceId, table, ack).0)
  {
    if e.orderId == e'.orderId && e.Type().Terminal() && e'.Type().Terminal() {
      TypesAgree(outbox, e, e');
    }
  }

  /** ... and moves the invoice one step along its life cycle, even when the status read before the
      write is stale by now. */
  lemma WriteAdvances(s: Sales, e: Event, invoiceId: string, table: Invoices, ack: Ack, o: OrderId)
    requires RowsOk(s) && OneTerminal(s.outbox) && HasEvent(s.outbox, e)
    requires o in table ==> InvoiceOk(s, o, table[o])
    ensures Advances(table, Write(e, invoiceId, table, ack).0, o)
  {
    if o in table && o == e.orderId && e.Type().Terminal() && table[o].status != InvoicePending {
      OneTerminalNoConflict(s.outbox);
      TerminalInvoice(s, e, table[o]);
      if e.PaidEvent? {
        EventsAgree(s.outbox, e, PaidEvent(o, table[o].paidAt.value));
      }
    }
  }

  /** A terminal invoice already has the status any terminal event of its order would write. */
  lemma TerminalInvoice(s: Sales, e: Event, inv: Invoice)
    requires NoConflict(s.outbox) && HasEvent(s.outbox, e) && e.Type().Terminal()
    requires InvoiceOk(s, e.orderId, inv) && inv.status != InvoicePending
    ensures inv.status == if e.PaidEvent? then InvoicePaid else InvoiceCancelled
  {
    EventHasType(s.outbox, e);
    if inv.status == InvoicePaid {
      EventHasType(s.outbox, PaidEvent(e.orderId, inv.paidAt.value));
    }
  }

  // ----- Effects through the steps of a run -----

  lemma EffectsGrow(b: Office, logs: Logs, logs': Logs)
    requires EffectsOk(b, logs) && Grows(logs, logs')
    ensures EffectsOk(b, logs')
  {
    forall slot | EffectAt(b, logs, slot)
      ensures EffectAt(b, logs', slot) && DecodedAt(logs', slot) == DecodedAt(logs, slot)
    {
      GrownSlot(logs, logs', slot);
    }
  }

  /** A step of one consumer after which the table still shows every effect, a slot newly done shows its
      own, and an invalid-state failure in hand is a payment already made. */
  ghost predicate Justified(b: Office, b': Office, logs: Logs, t: Topic) {
    && (forall slot :: EffectAt(b, logs, slot) ==> EffectAt(b', logs, slot))
    && (forall d :: d in b'.done && d !in b.done ==> EffectAt(b', logs, d))
    && (forall u :: u != t ==> PhaseOf(b', u) == PhaseOf(b, u))
    && (PhaseOf(b', t).Failed? && PhaseOf(b', t).error == InvalidState ==> PaidAlready(b', logs, PhaseOf(b', t).slot))
    && (forall l :: l in b'.letters && l !in b.letters ==>
          PhaseOf(b, t).Failed? && l == DeadLetter(PhaseOf(b, t).slot, HandlerFailed(PhaseOf(b, t).error)))
  }

  lemma JustifiedKeeps(b: Office, b': Office, logs: Logs, t: Topic)
    requires EffectsOk(b, logs) && Justified(b, b', logs, t)
    ensures EffectsOk(b', logs)
  {
    forall slot | PaidAlready(b, logs, slot) ensures PaidAlready(b', logs, slot) {
    }
  }

  /** Steps that leave invoices, successes and letters alone and start no failure. */
  lemma QuietKeeps(b: Office, b': Office, logs: Logs)
    requires EffectsOk(b, logs) && b'.invoices == b.invoices && b'.done == b.done && b'.letters == b.letters
    requires forall t :: PhaseOf(b', t).Failed? ==> PhaseOf(b', t) == PhaseOf(b, t)
    ensures EffectsOk(b', logs)
  {
    forall slot | EffectAt(b, logs, slot) ensures EffectAt(b', logs, slot) {
    }
  }

  /** A payment rejected for its invoice's state finds it PAID; a cancellation is never rejected so. */
  lemma RejectedState(s: Sales, e: Event, table: Invoices, ok: bool)
    requires NoConflict(s.outbox) && InvoicesOk(s, table) && HasEvent(s.outbox, e)
    requires Decide(e, Find(table, e.orderId, ok)) == Reject(InvalidState)
    ensures e.PaidEvent? && Effected(e, table)
  {
    TerminalInvoice(s, e, table[e.orderId]);
  }

  lemma GetJustified(b: Office, logs: Logs, a: Action, e: Event)
    requires a.Get? && OfficeEnabled(b, logs, a) && DecodedAt(logs, PhaseOf(b, a.topic).slot) == Parsed(e)
    requires Decide(e, Find(b.invoices, e.orderId, a.ok)) == Reject(InvalidState) ==>
               e.PaidEvent? && Effected(e, b.invoices)
    ensures Justified(b, OfficeEffect(b, logs, a), logs, a.topic)
  {
    var b' := OfficeEffect(b, logs, a);
    assert b'.invoices == b.invoices && b'.letters == b.letters;
    forall slot | EffectAt(b, logs, slot) ensures EffectAt(b', logs, slot) {
    }
  }

  lemma PutJustified(b: Office, logs: Logs, a: Action)
    requires a.Put? && OfficeEnabled(b, logs, a)
    requires forall slot :: EffectAt(b, logs, slot) ==> EffectAt(OfficeEffect(b, logs, a), logs, slot)
    ensures Justified(b, OfficeEffect(b, logs, a), logs, a.topic)
  {
    var b' := OfficeEffect(b, logs, a);
    var e := DecodedAt(logs, PhaseOf(b, a.topic).slot).event;
    assert b'.invoices == Write(e, a.invoiceId, b.invoices, a.ack).0 && b'.letters == b.letters;
  }

  lemma BuryJustified(b: Office, logs: Logs, t: Topic)
    requires OfficeEnabled(b, logs, Bury(t))
    ensures Justified(b, OfficeEffect(b, logs, Bury(t)), logs, t)
  {
    forall slot | EffectAt(b, logs, slot) ensures EffectAt(OfficeEffect(b, logs, Bury(t)), logs, slot) {
    }
  }

  lemma FaultJustified(b: Office, logs: Logs, t: Topic, cancelled: bool)
    requires OfficeEnabled(b, logs, Fault(t, cancelled))
    ensures Justified(b, OfficeEffect(b, logs, Fault(t, cancelled)), logs, t)
  {
    forall slot | EffectAt(b, logs, slot) ensures EffectAt(OfficeEffect(b, logs, Fault(t, cancelled)), logs, slot) {
    }
  }

  /** The events behind the slots in hand and done are events of the outbox. */
  lemma PutKeepsEffects(s: State, a: Action, b': Office)
    requires OrderInv(s.sales, s.logs) && NoConflict(s.sales.outbox) && a.Put? && OfficeEnabled(s.office, s.logs, a)
    requires b' == OfficeEffect(s.office, s.logs, a)
    ensures forall slot :: EffectAt(s.office, s.logs, slot) ==> EffectAt(b', s.logs, slot)
  {
    var b := s.office;
    var i := SlotRow(s, PhaseOf(b, a.topic).slot);
    var e := EventIn(s.sales.outbox[i]);
    assert b'.invoices == Write(e, a.invoiceId, b.invoices, a.ack).0;
    forall slot | EffectAt(b, s.logs, slot) ensures EffectAt(b', s.logs, slot) {
      var j := SlotRow(s, slot);
      WriteKeepsEffects(s.sales.outbox, e, EventIn(s.sales.outbox[j]), a.invoiceId, b.invoices, a.ack);
    }
  }

  lemma ConsumerJustified(s: State, a: Action)
    requires OrderInv(s.sales, s.logs) && NoConflict(s.sales.outbox) && InvoicesOk(s.sales, s.office.invoices)
    requires (a.Get? || a.Put? || a.Bury? || a.Fault?) && OfficeEnabled(s.office, s.logs, a)
    ensures Justified(s.office, OfficeEffect(s.office, s.logs, a), s.logs, a.topic)
  {
    match a {
      case Get(t, ok, _) =>
        var i := SlotRow(s, PhaseOf(s.office, t).slot);
        var e := EventIn(s.sales.outbox[i]);
        if Decide(e, Find(s.office.invoices, e.orderId, ok)) == Reject(InvalidState) {
          RejectedState(s.sales, e, s.office.invoices, ok);
        }
        GetJustified(s.office, s.logs, a, e);
      case Put(_, _, _, _) =>
        PutKeepsEffects(s, a, OfficeEffect(s.office, s.logs, a));
        PutJustified(s.office, s.logs, a);
      case Bury(t) => BuryJustified(s.office, s.logs, t);
      case Fault(t, cancelled) => FaultJustified(s.office, s.logs, t, cancelled);
    }
  }

  predicate Quiet(a: Action) { !a.OfSales() && !a.Get? && !a.Put? && !a.Bury? && !a.Fault? }

  lemma QuietEnter(b: Office, b': Office, t: Topic, phase: Phase)
    requires b'.phases == b.phases[t := phase] && !phase.Failed?
    ensures forall u :: PhaseOf(b', u).Failed? ==> PhaseOf(b', u) == PhaseOf(b, u)
  {
  }

  lemma QuietPhases(b: Office, logs: Logs, a: Action)
    requires Quiet(a) && OfficeEnabled(b, logs, a)
    ensures var b' := OfficeEffect(b, logs, a);
            && b'.invoices == b.invoices && b'.done == b.done && b'.letters == b.letters
            && forall t :: PhaseOf(b', t).Failed? ==> PhaseOf(b', t) == PhaseOf(b, t)
  {
    var b' := OfficeEffect(b, logs, a);
    match a {
      case Fetch(at) => QuietEnter(b, b', at.topic, PhaseOf(b', at.topic));
      case Check(t, _) => QuietEnter(b, b', t, PhaseOf(b', t));
      case Save(t, _) => QuietEnter(b, b', t, PhaseOf(b', t));
      case Commit(t, _) => QuietEnter(b, b', t, PhaseOf(b', t));
      case _ =>
    }
  }

  lemma QuietStep(b: Office, logs: Logs, a: Action)
    requires EffectsOk(b, logs) && Quiet(a) && OfficeEnabled(b, logs, a)
    ensures EffectsOk(OfficeEffect(b, logs, a), logs)
  {
    QuietPhases(b, logs, a);
    QuietKeeps(b, OfficeEffect(b, logs, a), logs);
  }

  lemma EffectsStep(s: State, a: Action)
    requires OrderInv(s.sales, s.logs) && InvoicesOk(s.sales, s.office.invoices)
    requires NoConflict(s.sales.outbox) && EffectsOk(s.office, s.logs)
    ensures EffectsOk(Apply(s, a).office, Apply(s, a).logs)
  {
    if Enabled(s, a) {
      if a.OfSales() {
        SalesGrowLogs(s.sales, s.logs, a);
        EffectsGrow(s.office, s.logs, Apply(s, a).logs);
      } else if a.Get? || a.Put? || a.Bury? || a.Fault? {
        ConsumerJustified(s, a);
        JustifiedKeeps(s.office, Apply(s, a).office, s.logs, a.topic);
      } else {
        QuietStep(s.office, s.logs, a);
      }
    }
  }

  lemma AgreedStep(s: State, a: Action)
    requires Inv(s) && Agreed(s) && NoConflict(s.sales.outbox) && NoConflict(Apply(s, a).sales.outbox)
    ensures Agreed(Apply(s, a))
  {
    if Enabled(s, a) && a.OfSales() {
      TerminalStep(s.sales, a);
    }
    EffectsStep(s, a);
  }

  lemma NoConflictStep(s: State, a: Action)
    requires OrderInv(s.sales, s.logs) && NoConflict(Apply(s, a).sales.outbox)
    ensures NoConflict(s.sales.outbox)
  {
    if Enabled(s, a) && a.OfSales() {
      SalesContinue(s.sales, a);
      NoConflictBefore(s.sales, SalesEffect(s.sales, a));
    }
  }

  lemma {:induction false} AgreedHolds(acts: seq<Action>)
    requires NoConflict(Exec(INIT, acts).sales.outbox)
    ensures Inv(Exec(INIT, acts)) && Agreed(Exec(INIT, acts))
  {
    InvHolds(acts);
    if acts != [] {
      var prefix, last := acts[..|acts| - 1], acts[|acts| - 1];
      InvHolds(prefix);
      NoConflictStep(Exec(INIT, prefix), last);
      AgreedHolds(prefix);
      AgreedStep(Exec(INIT, prefix), last);
    }
  }
}

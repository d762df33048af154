/** When an event is lost although every call of the handlers to the database succeeds: exactly when each of
    its reads came before its order had an invoice. Crashes, lost commits and lost dedup records may occur. */
module Meeting {
  import opened Domain
  import opened Dispatch
  import opened Outbox
  import opened Billing
  import opened Protocol
  import opened OrderSide
  import opened Delivery
  import opened Invoicing
  import opened Guarantees

  /** No handler fails of itself: reads answer, writes are acknowledged, nothing panics. */
  predicate Smooth(a: Action) {
    (a.Get? ==> a.ok) && (a.Put? ==> a.ack.Acked?) && !a.Fault?
  }

  ghost predicate SmoothRun(acts: seq<Action>) {
    forall i :: 0 <= i < |acts| ==> Smooth(acts[i])
  }

  /** The step reads for an event of this order and type, and the order has its invoice by then. */
  ghost predicate Meets(s: State, a: Action, o: OrderId, t: EventType) {
    && a.Get? && Enabled(s, a) && Carries(s.logs, PhaseOf(s.office, a.topic).slot, o, t)
    && o in s.office.invoices
  }

  ghost predicate Met(acts: seq<Action>, o: OrderId, t: EventType) {
    acts != [] &&
    var prefix := acts[..|acts| - 1];
    Met(prefix, o, t) || Meets(Exec(INIT, prefix), acts[|acts| - 1], o, t)
  }

  // ----- Nothing is settled without such a read -----

  ghost predicate AboutToWrite(s: State, u: Topic, o: OrderId, t: EventType) {
    PhaseOf(s.office, u).Writing? && Carries(s.logs, PhaseOf(s.office, u).slot, o, t)
  }

  /** A write is begun by a read that decides to go on. */
  ghost predicate Begins(b: Office, logs: Logs, a: Action, u: Topic)
    requires !a.OfSales() && OfficeEnabled(b, logs, a)
  {
    && a.Get? && a.topic == u && DecodedAt(logs, PhaseOf(b, u).slot).Parsed?
    && var e := DecodedAt(logs, PhaseOf(b, u).slot).event;
       Decide(e, Find(b.invoices, e.orderId, a.ok)) == Proceed
  }

  lemma GetBegins(b: Office, logs: Logs, a: Action, u: Topic)
    requires a.Get? && OfficeEnabled(b, logs, a)
    requires PhaseOf(OfficeEffect(b, logs, a), u).Writing? && PhaseOf(OfficeEffect(b, logs, a), u) != PhaseOf(b, u)
    ensures Begins(b, logs, a, u) && PhaseOf(OfficeEffect(b, logs, a), u).slot == PhaseOf(b, u).slot
  {
  }

  lemma OthersBeginNone(b: Office, logs: Logs, a: Action, u: Topic)
    requires !a.OfSales() && !a.Get? && OfficeEnabled(b, logs, a) && PhaseOf(OfficeEffect(b, logs, a), u).Writing?
    ensures PhaseOf(OfficeEffect(b, logs, a), u) == PhaseOf(b, u)
  {
    if Advancing(a) {
      AdvancingMoves(b, logs, a);
      MovesFrame(b, OfficeEffect(b, logs, a), a.topic);
    } else if a.Fetch? {
      FetchTakes(b, logs, a.at);
    }
  }

  lemma BegunByGet(b: Office, logs: Logs, a: Action, u: Topic)
    requires !a.OfSales() && OfficeEnabled(b, logs, a) && PhaseOf(OfficeEffect(b, logs, a), u).Writing?
    ensures PhaseOf(OfficeEffect(b, logs, a), u) == PhaseOf(b, u)
            || (Begins(b, logs, a, u) && PhaseOf(OfficeEffect(b, logs, a), u).slot == PhaseOf(b, u).slot)
  {
    if a.Get? {
      if PhaseOf(OfficeEffect(b, logs, a), u) != PhaseOf(b, u) {
        GetBegins(b, logs, a, u);
      }
    } else {
      OthersBeginNone(b, logs, a, u);
    }
  }

  lemma WriteBegins(s: State, a: Action, u: Topic, o: OrderId, t: EventType)
    requires Inv(s) && t.Terminal() && AboutToWrite(Apply(s, a), u, o, t)
    ensures AboutToWrite(s, u, o, t) || Meets(s, a, o, t)
  {
    if Enabled(s, a) && !a.OfSales() {
      BegunByGet(s.office, s.logs, a, u);
    } else if Enabled(s, a) {
      var slot := PhaseOf(s.office, u).slot;
      assert Position(s.office, slot.at) <= |Log(s.logs, slot.at)|;
      SalesGrowLogs(s.sales, s.logs, a);
      GrownSlot(s.logs, Apply(s, a).logs, slot);
    }
  }

  /** The step that makes an invoice show an event is the write it was about to make. */
  lemma TakenByWrite(s: State, a: Action, o: OrderId, t: EventType)
    requires OrderInv(s.sales, s.logs) && Took(Apply(s, a).office.invoices, o, t) && !Took(s.office.invoices, o, t)
    ensures a.Put? && AboutToWrite(s, a.topic, o, t)
  {
    if a.Put? && Enabled(s, a) {
      var i := SlotRow(s, PhaseOf(s.office, a.topic).slot);
      WriteTakes(EventIn(s.sales.outbox[i]), a.invoiceId, s.office.invoices, a.ack, o, t);
    } else if !a.OfSales() && Enabled(s, a) {
      OthersKeepInvoices(s.office, s.logs, a);
    }
  }

  lemma {:induction false} WrittenAfterMeeting(acts: seq<Action>, o: OrderId, t: EventType)
    requires t.Terminal()
    ensures Took(Exec(INIT, acts).office.invoices, o, t) ==> Met(acts, o, t)
    ensures forall u :: AboutToWrite(Exec(INIT, acts), u, o, t) ==> Met(acts, o, t)
  {
    if acts != [] {
      var prefix, last := acts[..|acts| - 1], acts[|acts| - 1];
      var s := Exec(INIT, prefix);
      InvHolds(prefix);
      WrittenAfterMeeting(prefix, o, t);
      if Took(Apply(s, last).office.invoices, o, t) && !Took(s.office.invoices, o, t) {
        TakenByWrite(s, last, o, t);
      }
      forall u | AboutToWrite(Apply(s, last), u, o, t) ensures Met(acts, o, t) {
        WriteBegins(s, last, u, o, t);
      }
    }
  }

  // ----- Such a read settles the invoice in the end -----

  /** The message is still to be fetched, or in the hands of a consumer that has not failed. */
  ghost predicate InHand(b: Office, slot: Slot) {
    var p := PhaseOf(b, slot.at.topic);
    (p.Fetched? || p.Handling? || p.Writing?) && p.slot == slot
  }

  ghost predicate Awaited(b: Office, slot: Slot) {
    Position(b, slot.at) <= slot.offset || InHand(b, slot)
  }

  ghost predicate Waiting(s: State, o: OrderId, t: EventType) {
    exists slot :: Carries(s.logs, slot, o, t) && Awaited(s.office, slot)
  }

  /** A terminal event finds its invoice; a creation needs none. */
  ghost predicate Welcome(s: State, o: OrderId, t: EventType) {
    t.Terminal() ==> o in s.office.invoices
  }

  lemma InvoicesStay(s: State, a: Action, o: OrderId)
    requires o in s.office.invoices
    ensures o in Apply(s, a).office.invoices
  {
    if Enabled(s, a) && !a.OfSales() && !a.Put? {
      OthersKeepInvoices(s.office, s.logs, a);
    }
  }

  lemma SkippedTook(s: State, slot: Slot, o: OrderId, t: EventType)
    requires OrderInv(s.sales, s.logs) && KeysOk(s.office, s.logs) && EffectsOk(s.office, s.logs)
    requires Carries(s.logs, slot, o, t) && KeyAt(s.logs, slot) in s.office.processed
    ensures Took(s.office.invoices, o, t)
  {
    var b := s.office;
    var n := SlotRow(s, slot);
    var e := EventIn(s.sales.outbox[n]);
    var d :| d in b.done && InLog(s.logs, d) && KeyAt(s.logs, d) == Key(e);
    assert EffectAt(b, s.logs, d);
    var m := SlotRow(s, d);
    KeyDecides(EventIn(s.sales.outbox[m]), e, b.invoices);
    EffectedTook(e, b.invoices);
  }

  /** A handler that finds what it needs goes on to the write, or finds the event shown already. */
  lemma WelcomeDecision(s: Sales, e: Event, table: Invoices)
    requires InvoicesOk(s, table) && NoConflict(s.outbox) && HasEvent(s.outbox, e)
    requires e.Type().Terminal() ==> e.orderId in table
    ensures Decide(e, Find(table, e.orderId, true)) == Proceed || Took(table, e.orderId, e.Type())
  {
    if e.Type().Terminal() && table[e.orderId].status != InvoicePending {
      TerminalInvoice(s, e, table[e.orderId]);
    }
  }

  lemma ReadMoves(s: State, a: Action, slot: Slot, o: OrderId, t: EventType)
    requires Inv(s) && NoConflict(s.sales.outbox) && a.Get? && a.ok && Enabled(s, a) && Welcome(s, o, t)
    requires PhaseOf(s.office, a.topic).slot == slot && slot.at.topic == a.topic && Carries(s.logs, slot, o, t)
    ensures InHand(Apply(s, a).office, slot) || Took(s.office.invoices, o, t)
  {
    var i := SlotRow(s, slot);
    WelcomeDecision(s.sales, EventIn(s.sales.outbox[i]), s.office.invoices);
  }

  lemma WriteShows(s: State, a: Action, o: OrderId, t: EventType)
    requires a.Put? && a.ack.Acked? && Enabled(s, a) && Welcome(s, o, t)
    requires Carries(s.logs, PhaseOf(s.office, a.topic).slot, o, t)
    ensures Took(Apply(s, a).office.invoices, o, t)
  {
  }

  /** Other consumers, and this one while it settles or commits, leave the message where it is. */
  lemma OthersAwait(b: Office, logs: Logs, a: Action, slot: Slot)
    requires OffsetsOk(b, logs) && !a.OfSales() && OfficeEnabled(b, logs, a) && Awaited(b, slot)
    requires (a.Check? || a.Get? || a.Put? || a.Fault?) && InHand(b, slot) ==> a.topic != slot.at.topic
    ensures Awaited(OfficeEffect(b, logs, a), slot)
  {
    if Advancing(a) {
      AdvancingMoves(b, logs, a);
      MovesFrame(b, OfficeEffect(b, logs, a), a.topic);
    } else if a.Fetch? {
      FetchTakes(b, logs, a.at);
    } else if a.BillingServiceCrash? {
      assert Committed(b, slot.at) <= Position(b, slot.at);
    }
  }

  lemma AwaitedStep(s: State, a: Action, slot: Slot, o: OrderId, t: EventType)
    requires Inv(s) && EffectsOk(s.office, s.logs) && NoConflict(s.sales.outbox) && Smooth(a) && Welcome(s, o, t)
    requires Enabled(s, a) && !a.OfSales() && Carries(s.logs, slot, o, t) && Awaited(s.office, slot)
    ensures Took(Apply(s, a).office.invoices, o, t) || Took(s.office.invoices, o, t)
            || Awaited(Apply(s, a).office, slot)
  {
    if (a.Check? || a.Get? || a.Put?) && InHand(s.office, slot) && a.topic == slot.at.topic {
      if a.Get? {
        ReadMoves(s, a, slot, o, t);
      } else if a.Put? {
        WriteShows(s, a, o, t);
      } else if a.ok && KeyAt(s.logs, slot) in s.office.processed {
        SkippedTook(s, slot, o, t);
      }
    } else {
      OthersAwait(s.office, s.logs, a, slot);
    }
  }

  lemma TookHasType(s: State, o: OrderId, t: EventType)
    requires Inv(s) && Took(s.office.invoices, o, t)
    ensures HasType(s.sales.outbox, o, t)
  {
    var inv := s.office.invoices[o];
    assert InvoiceOk(s.sales, o, inv);
    if t == OrderPaid {
      EventHasType(s.sales.outbox, PaidEvent(o, inv.paidAt.value));
    } else if t == OrderCreated {
      CreatedRow(s.sales.outbox, o);
    }
  }

  lemma {:induction false} CreatedRow(outbox: seq<OutboxRow>, o: OrderId)
    requires CountRows(outbox, o, OrderCreated) > 0
    ensures HasType(outbox, o, OrderCreated)
  {
    var n := |outbox| - 1;
    if outbox[n].orderId != o || outbox[n].eventType != OrderCreated {
      CreatedRow(outbox[..n], o);
      var i :| 0 <= i < n && outbox[..n][i].orderId == o && outbox[..n][i].eventType == OrderCreated;
      assert outbox[i].orderId == o && outbox[i].eventType == OrderCreated;
    }
  }

  lemma TookStays(s: State, a: Action, o: OrderId, t: EventType)
    requires Inv(s) && NoConflict(s.sales.outbox) && Took(s.office.invoices, o, t)
    ensures Took(Apply(s, a).office.invoices, o, t)
  {
    TookHasType(s, o, t);
    TookEndures(s, a, o, t);
  }

  lemma WelcomeStays(s: State, a: Action, o: OrderId, t: EventType)
    requires Welcome(s, o, t)
    ensures Welcome(Apply(s, a), o, t)
  {
    if t.Terminal() {
      InvoicesStay(s, a, o);
    }
  }

  lemma CarriedOn(s: State, a: Action, slot: Slot, o: OrderId, t: EventType)
    requires OrderInv(s.sales, s.logs) && Carries(s.logs, slot, o, t)
    ensures Carries(Apply(s, a).logs, slot, o, t)
  {
    DoneGrows(s, a);
    GrownSlot(s.logs, Apply(s, a).logs, slot);
  }

  lemma SlotStep(s: State, a: Action, slot: Slot, o: OrderId, t: EventType)
    requires Inv(s) && EffectsOk(s.office, s.logs) && NoConflict(s.sales.outbox) && Smooth(a) && Welcome(s, o, t)
    requires Carries(s.logs, slot, o, t) && Awaited(s.office, slot) && !Took(s.office.invoices, o, t)
    ensures Took(Apply(s, a).office.invoices, o, t) || Awaited(Apply(s, a).office, slot)
  {
    if Enabled(s, a) && !a.OfSales() {
      AwaitedStep(s, a, slot, o, t);
    }
  }

  /** A welcome event that is shown or awaited stays so. */
  lemma WaitingStep(s: State, a: Action, o: OrderId, t: EventType)
    requires Inv(s) && EffectsOk(s.office, s.logs) && NoConflict(s.sales.outbox) && Smooth(a) && Welcome(s, o, t)
    requires Took(s.office.invoices, o, t) || Waiting(s, o, t)
    ensures Welcome(Apply(s, a), o, t)
    ensures Took(Apply(s, a).office.invoices, o, t) || Waiting(Apply(s, a), o, t)
  {
    WelcomeStays(s, a, o, t);
    if Took(s.office.invoices, o, t) {
      TookStays(s, a, o, t);
    } else {
      var slot :| Carries(s.logs, slot, o, t) && Awaited(s.office, slot);
      CarriedOn(s, a, slot, o, t);
      SlotStep(s, a, slot, o, t);
    }
  }

  /** A read in hand is awaited. */
  lemma MeetsWaits(s: State, a: Action, o: OrderId, t: EventType)
    requires Inv(s) && Meets(s, a, o, t)
    ensures Waiting(s, o, t)
  {
    var slot := PhaseOf(s.office, a.topic).slot;
    assert Awaited(s.office, slot);
  }

  lemma {:induction false} MetSettles(acts: seq<Action>, o: OrderId, t: EventType)
    requires NoConflict(Exec(INIT, acts).sales.outbox) && SmoothRun(acts) && Met(acts, o, t)
    ensures var s := Exec(INIT, acts);
            o in s.office.invoices && (Took(s.office.invoices, o, t) || Waiting(s, o, t))
  {
    var prefix, last := acts[..|acts| - 1], acts[|acts| - 1];
    var s := Exec(INIT, prefix);
    InvHolds(prefix);
    NoConflictStep(s, last);
    AgreedHolds(prefix);
    assert SmoothRun(prefix) && Smooth(acts[|acts| - 1]);
    if Met(prefix, o, t) {
      MetSettles(prefix, o, t);
    } else {
      MeetsWaits(s, last, o, t);
    }
    InvoicesStay(s, last, o);
    WaitingStep(s, last, o, t);
  }

  // ----- Creations are always welcome -----

  ghost predicate Posted(logs: Logs, o: OrderId, t: EventType) {
    exists slot :: Carries(logs, slot, o, t)
  }

  lemma CarriedBefore(s: State, a: Action, slot: Slot, o: OrderId, t: EventType)
    requires OrderInv(s.sales, s.logs) && InLog(s.logs, slot) && Carries(Apply(s, a).logs, slot, o, t)
    ensures Carries(s.logs, slot, o, t)
  {
    DoneGrows(s, a);
    GrownSlot(s.logs, Apply(s, a).logs, slot);
  }

  lemma NewSlotAwaited(s: State, a: Action, slot: Slot)
    requires OffsetsOk(s.office, s.logs) && !InLog(s.logs, slot) && InLog(Apply(s, a).logs, slot)
    ensures Awaited(Apply(s, a).office, slot)
  {
    assert Position(s.office, slot.at) <= |Log(s.logs, slot.at)|;
    assert a.OfSales();
  }

  /** A message just posted is still to be fetched. */
  lemma PostedWaits(s: State, a: Action, o: OrderId, t: EventType)
    requires Inv(s) && Posted(Apply(s, a).logs, o, t) && !Posted(s.logs, o, t)
    ensures Waiting(Apply(s, a), o, t)
  {
    var slot :| Carries(Apply(s, a).logs, slot, o, t);
    if InLog(s.logs, slot) {
      CarriedBefore(s, a, slot, o, t);
      assert false;
    } else {
      NewSlotAwaited(s, a, slot);
    }
  }

  lemma {:induction false} CreationSettles(acts: seq<Action>, o: OrderId)
    requires NoConflict(Exec(INIT, acts).sales.outbox) && SmoothRun(acts)
    requires Posted(Exec(INIT, acts).logs, o, OrderCreated)
    ensures var s := Exec(INIT, acts); Took(s.office.invoices, o, OrderCreated) || Waiting(s, o, OrderCreated)
  {
    if acts != [] {
      var prefix, last := acts[..|acts| - 1], acts[|acts| - 1];
      var s := Exec(INIT, prefix);
      InvHolds(prefix);
      NoConflictStep(s, last);
      AgreedHolds(prefix);
      assert SmoothRun(prefix) && Smooth(acts[|acts| - 1]);
      if Posted(s.logs, o, OrderCreated) {
        CreationSettles(prefix, o);
        WaitingStep(s, last, o, OrderCreated);
      } else {
        PostedWaits(s, last, o, OrderCreated);
      }
    }
  }

  // ----- At quiescence nothing waits -----

  lemma NothingWaits(s: State, o: OrderId, t: EventType)
    requires DeliveryInv(s.office, s.logs) && Quiescent(s)
    ensures !Waiting(s, o, t)
  {
    forall slot | Carries(s.logs, slot, o, t) ensures !Awaited(s.office, slot) {
      assert Committed(s.office, slot.at) == |Log(s.logs, slot.at)|;
      assert Committed(s.office, slot.at) <= Position(s.office, slot.at);
    }
  }

  lemma CreationPosted(s: State, o: OrderId)
    requires OrderInv(s.sales, s.logs) && Quiescent(s) && o in s.sales.orders
    ensures Posted(s.logs, o, OrderCreated)
  {
    CreatedRow(s.sales.outbox, o);
    var i :| 0 <= i < |s.sales.outbox| && s.sales.outbox[i].orderId == o && s.sales.outbox[i].eventType == OrderCreated;
    var slot := RowSlot(s.sales, s.logs, i);
    assert Carries(s.logs, slot, o, OrderCreated);
  }

  /** With handlers that never fail of themselves, an order's last event is lost if and only if it is a payment
      or a cancellation all of whose reads came before the order's creation was handled. */
  lemma LostIffNeverMet(acts: seq<Action>, o: OrderId)
    requires NoConflict(Exec(INIT, acts).sales.outbox) && SmoothRun(acts) && Quiescent(Exec(INIT, acts))
    requires o in Exec(INIT, acts).sales.orders
    ensures
      var s := Exec(INIT, acts);
      !Mirrored(s, o) <==> LastEvent(s, o).Terminal() && !Met(acts, o, LastEvent(s, o))
  {
    var s := Exec(INIT, acts);
    var t := LastEvent(s, o);
    AgreedHolds(acts);
    TookIsMirrored(s, o);
    NothingWaits(s, o, t);
    if !t.Terminal() {
      CreationPosted(s, o);
      CreationSettles(acts, o);
    } else {
      WrittenAfterMeeting(acts, o, t);
      if Met(acts, o, t) {
        MetSettles(acts, o, t);
      }
    }
  }
}

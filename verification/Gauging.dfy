/** The state gauges of billing_service/internal/service/billing.go:50-123 over whole runs, with the reads and
    writes of the three consumers interleaved. */
module Gauging {
  import opened Prelude
  import opened Domain
  import opened Dispatch
  import opened Outbox
  import opened Billing
  import opened BillingDesk
  import opened Protocol
  import opened OrderSide
  import opened Delivery
  import opened Invoicing

  const ZERO: Gauges := Gauges(0, 0, 0)

  /** What a handler does to the gauges after its write succeeded. */
  function Moved(g: Gauges, e: Event): Gauges {
    match e
    case CreatedEvent(_, _, _, _) => g.(pending := g.pending + 1)
    case PaidEvent(_, _) => g.(pending := g.pending - 1, paid := g.paid + 1)
    case CancelledEvent(_, _) => g.(pending := g.pending - 1, cancelled := g.cancelled + 1)
  }

  /** The gauges of the current process, and the invoice table at its start. */
  datatype Readings = Readings(gauges: Gauges, base: Invoices)

  ghost function Read(r: Readings, s: State, a: Action): Readings {
    if !Enabled(s, a) then r
    else if a.BillingServiceCrash? then Readings(ZERO, s.office.invoices)
    else if a.Put? then
      var e := DecodedAt(s.logs, PhaseOf(s.office, a.topic).slot).event;
      if Write(e, a.invoiceId, s.office.invoices, a.ack).1 == None then r.(gauges := Moved(r.gauges, e)) else r
    else r
  }

  ghost function ReadingsOf(acts: seq<Action>): Readings {
    if acts == [] then Readings(ZERO, map[])
    else
      var prefix := acts[..|acts| - 1];
      Read(ReadingsOf(prefix), Exec(INIT, prefix), acts[|acts| - 1])
  }

  /** A write that reports an error has had no effect. */
  predicate Honest(a: Action) { a.Put? ==> !a.ack.Applied? }

  ghost predicate HonestRun(acts: seq<Action>) {
    forall i :: 0 <= i < |acts| ==> Honest(acts[i])
  }

  /** The consumer of the topic is about to write this event, and its invoice is still PENDING if the event is
      to settle it. */
  ghost predicate WritingOk(b: Office, logs: Logs, t: Topic)
    requires PhaseOf(b, t).Writing?
  {
    var slot := PhaseOf(b, t).slot;
    && slot.at.topic == t && InLog(logs, slot) && DecodedAt(logs, slot).Parsed?
    && var e := DecodedAt(logs, slot).event;
       e.Type().Terminal() ==> e.orderId in b.invoices && b.invoices[e.orderId].status == InvoicePending
  }

  ghost predicate WritingsOk(b: Office, logs: Logs) {
    forall t :: PhaseOf(b, t).Writing? ==> WritingOk(b, logs, t)
  }

  // ----- A write is never overtaken -----

  lemma WritingsGrow(b: Office, logs: Logs, logs': Logs)
    requires WritingsOk(b, logs) && Grows(logs, logs')
    ensures WritingsOk(b, logs')
  {
    forall t | PhaseOf(b, t).Writing? ensures WritingOk(b, logs', t) {
      assert WritingOk(b, logs, t);
      GrownSlot(logs, logs', PhaseOf(b, t).slot);
    }
  }

  lemma GetWriting(b: Office, logs: Logs, a: Action)
    requires WritingsOk(b, logs) && OffsetsOk(b, logs) && a.Get? && OfficeEnabled(b, logs, a)
    ensures WritingsOk(OfficeEffect(b, logs, a), logs)
  {
    var b' := OfficeEffect(b, logs, a);
    assert b'.invoices == b.invoices;
    forall t | PhaseOf(b', t).Writing? ensures WritingOk(b', logs, t) {
      if t != a.topic {
        assert PhaseOf(b', t) == PhaseOf(b, t) && WritingOk(b, logs, t);
      }
    }
  }

  lemma OthersWriting(b: Office, logs: Logs, a: Action)
    requires !a.OfSales() && !a.Get? && !a.Put? && OfficeEnabled(b, logs, a)
    ensures var b' := OfficeEffect(b, logs, a);
            b'.invoices == b.invoices && forall t :: PhaseOf(b', t).Writing? ==> PhaseOf(b', t) == PhaseOf(b, t)
  {
    OthersKeepInvoices(b, logs, a);
  }

  /** Two consumers about to write the same order's invoice hold events of different types, of which one write
      fails; two of them that settle it would be a conflict. */
  lemma WritesApart(outbox: seq<OutboxRow>, i: nat, j: nat, invoiceId: string, table: Invoices, ack: Ack)
    requires NoConflict(outbox) && i < |outbox| && j < |outbox| && RowOk(outbox[i]) && RowOk(outbox[j])
    requires outbox[i].topic != outbox[j].topic && outbox[j].eventType.Terminal()
    requires outbox[j].orderId in table && table[outbox[j].orderId].status == InvoicePending
    ensures var table' := Write(EventIn(outbox[i]), invoiceId, table, ack).0;
            outbox[j].orderId in table' && table'[outbox[j].orderId].status == InvoicePending
  {
    if outbox[i].orderId == outbox[j].orderId && outbox[i].eventType.Terminal() {
      SameTerminal(outbox, i, j);
    }
  }

  lemma PutWriting(s: State, a: Action)
    requires OrderInv(s.sales, s.logs) && NoConflict(s.sales.outbox)
    requires WritingsOk(s.office, s.logs) && a.Put? && OfficeEnabled(s.office, s.logs, a)
    ensures WritingsOk(OfficeEffect(s.office, s.logs, a), s.logs)
  {
    var b, b' := s.office, OfficeEffect(s.office, s.logs, a);
    assert WritingOk(b, s.logs, a.topic);
    PutPhases(b, s.logs, a);
    forall t | PhaseOf(b', t).Writing? ensures WritingOk(b', s.logs, t) {
      assert WritingOk(b, s.logs, t);
      OtherWriting(s, a.topic, t, b', a.invoiceId, a.ack);
    }
  }

  lemma PutPhases(b: Office, logs: Logs, a: Action)
    requires a.Put? && OfficeEnabled(b, logs, a)
    ensures var b' := OfficeEffect(b, logs, a);
            && (forall t :: PhaseOf(b', t).Writing? ==> t != a.topic && PhaseOf(b', t) == PhaseOf(b, t))
            && b'.invoices == Write(DecodedAt(logs, PhaseOf(b, a.topic).slot).event, a.invoiceId, b.invoices, a.ack).0
  {
  }

  lemma OtherWriting(s: State, t: Topic, u: Topic, b': Office, invoiceId: string, ack: Ack)
    requires OrderInv(s.sales, s.logs) && NoConflict(s.sales.outbox) && t != u
    requires PhaseOf(s.office, t).Writing? && WritingOk(s.office, s.logs, t)
    requires PhaseOf(s.office, u).Writing? && WritingOk(s.office, s.logs, u) && PhaseOf(b', u) == PhaseOf(s.office, u)
    requires var e := DecodedAt(s.logs, PhaseOf(s.office, t).slot).event;
             b'.invoices == Write(e, invoiceId, s.office.invoices, ack).0
    ensures WritingOk(b', s.logs, u)
  {
    var i := SlotRow(s, PhaseOf(s.office, t).slot);
    var j := SlotRow(s, PhaseOf(s.office, u).slot);
    if s.sales.outbox[j].eventType.Terminal() {
      WritesApart(s.sales.outbox, i, j, invoiceId, s.office.invoices, ack);
    }
  }

  lemma WritingsStep(s: State, a: Action)
    requires Inv(s) && NoConflict(s.sales.outbox) && WritingsOk(s.office, s.logs)
    ensures WritingsOk(Apply(s, a).office, Apply(s, a).logs)
  {
    if Enabled(s, a) {
      if a.OfSales() {
        SalesGrowLogs(s.sales, s.logs, a);
        WritingsGrow(s.office, s.logs, Apply(s, a).logs);
      } else if a.Put? {
        PutWriting(s, a);
      } else if a.Get? {
        GetWriting(s.office, s.logs, a);
      } else {
        OthersWriting(s.office, s.logs, a);
        var b' := OfficeEffect(s.office, s.logs, a);
        forall t | PhaseOf(b', t).Writing? ensures WritingOk(b', s.logs, t) {
          assert WritingOk(s.office, s.logs, t);
        }
      }
    }
  }

  // ----- The gauges follow the table -----

  lemma WriteMoves(e: Event, invoiceId: string, table: Invoices, ack: Ack, g: Gauges)
    requires e.Type().Terminal() ==> e.orderId in table && table[e.orderId].status == InvoicePending
    requires Write(e, invoiceId, table, ack).1 == None
    ensures InStep(g, table, Moved(g, e), Write(e, invoiceId, table, ack).0)
  {
    var o, table' := e.orderId, Write(e, invoiceId, table, ack).0;
    assert table' == table[o := table'[o]];
    CountsWrite(table, o, table'[o]);
  }

  lemma InStepTransitive(g: Gauges, a: Invoices, g': Gauges, b: Invoices, g'': Gauges, c: Invoices)
    requires InStep(g, a, g', b) && InStep(g', b, g'', c)
    ensures InStep(g, a, g'', c)
  {
  }

  lemma ReadStep(r: Readings, s: State, a: Action)
    requires WritingsOk(s.office, s.logs) && Honest(a) && InStep(ZERO, r.base, r.gauges, s.office.invoices)
    ensures var r' := Read(r, s, a); InStep(ZERO, r'.base, r'.gauges, Apply(s, a).office.invoices)
  {
    if Enabled(s, a) && a.Put? {
      var e := DecodedAt(s.logs, PhaseOf(s.office, a.topic).slot).event;
      var (table, error) := Write(e, a.invoiceId, s.office.invoices, a.ack);
      assert WritingOk(s.office, s.logs, a.topic);
      if error == None {
        WriteMoves(e, a.invoiceId, s.office.invoices, a.ack, r.gauges);
        InStepTransitive(ZERO, r.base, r.gauges, s.office.invoices, Moved(r.gauges, e), table);
      }
    } else if Enabled(s, a) && !a.OfSales() {
      OthersKeepInvoices(s.office, s.logs, a);
    }
  }

  lemma {:induction false} WritingsHold(acts: seq<Action>)
    requires NoConflict(Exec(INIT, acts).sales.outbox)
    ensures WritingsOk(Exec(INIT, acts).office, Exec(INIT, acts).logs)
  {
    if acts != [] {
      var prefix, last := acts[..|acts| - 1], acts[|acts| - 1];
      InvHolds(prefix);
      NoConflictStep(Exec(INIT, prefix), last);
      WritingsHold(prefix);
      WritingsStep(Exec(INIT, prefix), last);
    }
  }

  /** In every run that never pays and cancels the same order, crashes and interleaved handlers included, each
      gauge equals the number of invoices in its state now less the number at process start, as long as no
      write that reports an error took effect. */
  lemma {:induction false} GaugesFollow(acts: seq<Action>)
    requires NoConflict(Exec(INIT, acts).sales.outbox) && HonestRun(acts)
    ensures var r := ReadingsOf(acts); InStep(ZERO, r.base, r.gauges, Exec(INIT, acts).office.invoices)
  {
    if acts != [] {
      var prefix, last := acts[..|acts| - 1], acts[|acts| - 1];
      InvHolds(prefix);
      NoConflictStep(Exec(INIT, prefix), last);
      GaugesFollow(prefix);
      WritingsHold(prefix);
      ReadStep(ReadingsOf(prefix), Exec(INIT, prefix), last);
    }
  }
}

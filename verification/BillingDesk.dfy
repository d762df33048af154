/** The billing database, billing_service/internal/service/billing.go with its gauges, and the statistics query. */
module BillingDesk {
  import opened Prelude
  import opened Domain
  import opened Billing
  import opened Stats

  /** The invoices table and the table of processed events. */
  class BillingDb {
    var invoices: Invoices
    var processed: set<string>

    constructor ()
      ensures invoices == map[] && processed == {}
    {
      invoices, processed := map[], {};
    }

    /** The unique index on order_id refuses a second invoice. */
    method Create(inv: Invoice, ack: Ack) returns (failed: bool)
      modifies this`invoices
      ensures failed <==> inv.orderId in old(invoices) || !ack.Acked?
      ensures invoices == if inv.orderId !in old(invoices) && !ack.Lost? then old(invoices)[inv.orderId := inv]
                          else old(invoices)
    {
      if inv.orderId in invoices {
        return true;
      }
      if ack.Effective() {
        invoices := invoices[inv.orderId := inv];
      }
      return !ack.Acked?;
    }

    method Get(orderId: OrderId, ok: bool) returns (r: Option<Invoice>)
      ensures r == Find(invoices, orderId, ok)
    {
      if ok && orderId in invoices {
        return Some(invoices[orderId]);
      }
      return None;
    }

    /** UPDATE ... WHERE order_id = ?, with no condition on the status; paid_at is written only if given. */
    method UpdateStatus(orderId: OrderId, status: InvoiceStatus, paidAt: Option<int>, ack: Ack) returns (failed: bool)
      modifies this`invoices
      ensures failed <==> orderId !in old(invoices) || !ack.Acked?
      ensures orderId in old(invoices) && !ack.Lost? ==>
                invoices == old(invoices)[orderId := old(invoices)[orderId].(
                  status := status, paidAt := if paidAt.Some? then paidAt else old(invoices)[orderId].paidAt)]
      ensures orderId !in old(invoices) || ack.Lost? ==> invoices == old(invoices)
    {
      if orderId !in invoices {
        return true;
      }
      var updated := invoices[orderId].(status := status);
      if paidAt.Some? {
        updated := updated.(paidAt := paidAt);
      }
      if ack.Effective() {
        invoices := invoices[orderId := updated];
      }
      return !ack.Acked?;
    }

    /** A failed query is not an answer of yes. */
    method Exists(key: string, ok: bool) returns (exists_: bool, failed: bool)
      ensures exists_ <==> ok && key in processed
      ensures failed <==> !ok
    {
      return ok && key in processed, !ok;
    }

    /** The primary key on event_id refuses a second record. */
    method Save(key: string, ack: Ack) returns (failed: bool)
      modifies this`processed
      ensures failed <==> key in old(processed) || !ack.Acked?
      ensures processed == if !ack.Lost? then old(processed) + {key} else old(processed)
    {
      if key in processed {
        return true;
      }
      if ack.Effective() {
        processed := processed + {key};
      }
      return !ack.Acked?;
    }
  }

  // ----- The state gauges -----

  datatype Gauges = Gauges(pending: int, paid: int, cancelled: int) {
    function Of(status: InvoiceStatus): int {
      match status
      case InvoicePending => pending
      case InvoicePaid => paid
      case InvoiceCancelled => cancelled
    }
  }

  /** The gauges have moved exactly as the table has. */
  predicate InStep(g: Gauges, before: Invoices, g': Gauges, after: Invoices) {
    forall status :: g'.Of(status) - g.Of(status) == Count(after, status) - Count(before, status)
  }

  class BillingService {
    const db: BillingDb
    var gauges: Gauges
    var created: nat
    var paid: nat
    var cancelled: nat

    constructor (db: BillingDb)
      ensures this.db == db && gauges == Gauges(0, 0, 0) && created == 0 && paid == 0 && cancelled == 0
    {
      this.db := db;
      gauges, created, paid, cancelled := Gauges(0, 0, 0), 0, 0, 0;
    }

    /** An invoice that exists is left alone; a failed read falls through to an insert that then fails. */
    method HandleOrderCreated(e: Event, io: Io) returns (error: Option<ErrorCode>)
      requires e.CreatedEvent? && !io.panics
      modifies this, db`invoices
      ensures (db.invoices, error) == Handle(e, old(db.invoices), io)
      ensures error == None ==> InStep(old(gauges), old(db.invoices), gauges, db.invoices)
      ensures error.Some? || e.orderId in old(db.invoices) ==> gauges == old(gauges)
      ensures error == None && e.orderId !in old(db.invoices) ==>
                gauges == Gauges(old(gauges).pending + 1, old(gauges).paid, old(gauges).cancelled)
      ensures created == old(created)
                         + (if error == None && e.orderId in db.invoices - old(db.invoices).Keys then 1 else 0)
      ensures paid == old(paid) && cancelled == old(cancelled)
    {
      var existing := db.Get(e.orderId, io.readOk);
      if existing.Some? {
        return None;
      }
      var inv := Invoice(io.invoiceId, e.orderId, e.total, InvoicePending, e.createdAt, None);
      var failed := db.Create(inv, io.ack);
      if failed {
        return Some(Internal);
      }
      CountsWrite(old(db.invoices), e.orderId, inv);
      created := created + 1;
      gauges := gauges.(pending := gauges.pending + 1);
      return None;
    }

    /** Only a pending invoice is paid; anything else is an error, a repeated payment included. */
    method HandleOrderPaid(e: Event, io: Io) returns (error: Option<ErrorCode>)
      requires e.PaidEvent? && !io.panics
      modifies this, db`invoices
      ensures (db.invoices, error) == Handle(e, old(db.invoices), io)
      ensures error == None ==> InStep(old(gauges), old(db.invoices), gauges, db.invoices)
      ensures error.Some? ==> gauges == old(gauges)
      ensures error == None ==>
                gauges == Gauges(old(gauges).pending - 1, old(gauges).paid + 1, old(gauges).cancelled)
      ensures paid == old(paid) + if error == None then 1 else 0
      ensures created == old(created) && cancelled == old(cancelled)
    {
      var found := db.Get(e.orderId, io.readOk);
      if found.None? {
        return Some(NotFound);
      }
      if found.value.status != InvoicePending {
        return Some(InvalidState);
      }
      var failed := db.UpdateStatus(e.orderId, InvoicePaid, Some(e.paidAt), io.ack);
      if failed {
        return Some(Internal);
      }
      CountsWrite(old(db.invoices), e.orderId, db.invoices[e.orderId]);
      paid := paid + 1;
      gauges := gauges.(pending := gauges.pending - 1);
      gauges := gauges.(paid := gauges.paid + 1);
      return None;
    }

    /** A pending invoice is cancelled, a cancelled one left alone, a paid one refused. */
    method HandleOrderCancelled(e: Event, io: Io) returns (error: Option<ErrorCode>)
      requires e.CancelledEvent? && !io.panics
      modifies this, db`invoices
      ensures (db.invoices, error) == Handle(e, old(db.invoices), io)
      ensures error == None ==> InStep(old(gauges), old(db.invoices), gauges, db.invoices)
      ensures error.Some? || db.invoices == old(db.invoices) ==> gauges == old(gauges)
      ensures error == None && db.invoices != old(db.invoices) ==>
                gauges == Gauges(old(gauges).pending - 1, old(gauges).paid, old(gauges).cancelled + 1)
      ensures cancelled == old(cancelled) + if error == None && db.invoices != old(db.invoices) then 1 else 0
      ensures created == old(created) && paid == old(paid)
    {
      var found := db.Get(e.orderId, io.readOk);
      if found.None? {
        return Some(NotFound);
      }
      if found.value.status == InvoicePaid {
        return Some(InvalidState);
      }
      if found.value.status == InvoiceCancelled {
        return None;
      }
      if found.value.status != InvoicePending {
        return Some(InvalidState);
      }
      var failed := db.UpdateStatus(e.orderId, InvoiceCancelled, None, io.ack);
      if failed {
        return Some(Internal);
      }
      CountsWrite(old(db.invoices), e.orderId, db.invoices[e.orderId]);
      cancelled := cancelled + 1;
      gauges := gauges.(pending := gauges.pending - 1);
      gauges := gauges.(cancelled := gauges.cancelled + 1);
      return None;
    }

    /** The handler the topic calls for. */
    method HandleEvent(e: Event, io: Io) returns (error: Option<ErrorCode>)
      requires !io.panics
      modifies this, db`invoices
      ensures (db.invoices, error) == Handle(e, old(db.invoices), io)
      ensures error == None ==> InStep(old(gauges), old(db.invoices), gauges, db.invoices)
      ensures error.Some? ==> gauges == old(gauges)
      ensures InStep(old(gauges), old(db.invoices), gauges, db.invoices)
              <==> error == None || db.invoices == old(db.invoices)
    {
      WriteIsCounted(e, db.invoices, io);
      match e {
        case CreatedEvent(_, _, _, _) => error := HandleOrderCreated(e, io);
        case PaidEvent(_, _) => error := HandleOrderPaid(e, io);
        case CancelledEvent(_, _) => error := HandleOrderCancelled(e, io);
      }
    }

    /** Any sequence of handler calls, succeeding or failing: as long as no call that reports an error
        changed the table, the gauges equal the table's counts less those at the start. */
    method HandleAll(calls: seq<(Event, Io)>)
      requires forall k :: 0 <= k < |calls| ==> !calls[k].1.panics
      modifies this, db`invoices
      ensures db.invoices == History(calls, old(db.invoices))[|calls|]
      ensures NoHiddenWrites(calls, old(db.invoices), |calls|) ==>
                InStep(old(gauges), old(db.invoices), gauges, db.invoices)
    {
      for k := 0 to |calls|
        invariant db.invoices == History(calls, old(db.invoices))[k]
        invariant NoHiddenWrites(calls, old(db.invoices), k) ==>
                    InStep(old(gauges), old(db.invoices), gauges, db.invoices)
      {
        HistoryNext(calls, old(db.invoices), k);
        var error := HandleEvent(calls[k].0, calls[k].1);
      }
    }
  }

  /** Every change of the table shows in a count. */
  lemma WriteIsCounted(e: Event, table: Invoices, io: Io)
    ensures var after := Handle(e, table, io).0;
            after != table ==> exists status :: Count(after, status) != Count(table, status)
  {
    var after := Handle(e, table, io).0;
    if after != table {
      var o := e.orderId;
      assert after == table[o := after[o]];
      CountWrite(table, o, after[o], after[o].status);
      assert Count(after, after[o].status) != Count(table, after[o].status);
    }
  }

  lemma CountsWrite(table: Invoices, o: OrderId, inv: Invoice)
    ensures forall status ::
              Count(table[o := inv], status) - Count(table, status)
              == Share(table[o := inv], o, status) - Share(table, o, status)
  {
    forall status
      ensures Count(table[o := inv], status) - Count(table, status)
              == Share(table[o := inv], o, status) - Share(table, o, status)
    {
      CountWrite(table, o, inv, status);
    }
  }

  lemma {:induction false} HistoryNext(calls: seq<(Event, Io)>, table: Invoices, k: nat)
    requires k < |calls|
    ensures var h := History(calls, table);
            h[k + 1] == Handle(calls[k].0, h[k], calls[k].1).0
  {
    if k > 0 {
      HistoryNext(calls[1..], Handle(calls[0].0, table, calls[0].1).0, k - 1);
    }
  }

  /** None of the first n calls left an effect in the table and reported an error. */
  ghost predicate NoHiddenWrites(calls: seq<(Event, Io)>, table: Invoices, n: nat)
    requires n <= |calls|
  {
    var h := History(calls, table);
    forall k :: 0 <= k < n ==> Handle(calls[k].0, h[k], calls[k].1).1 == None || h[k + 1] == h[k]
  }

  /** So it is when a database call that returns an error had no effect. */
  lemma HonestWrites(calls: seq<(Event, Io)>, table: Invoices, n: nat)
    requires n <= |calls| && forall k :: 0 <= k < n ==> !calls[k].1.ack.Applied?
    ensures NoHiddenWrites(calls, table, n)
  {
    forall k | 0 <= k < n
      ensures var h := History(calls, table);
              Handle(calls[k].0, h[k], calls[k].1).1 == None || h[k + 1] == h[k]
    {
      HistoryNext(calls, table, k);
    }
  }

  // ----- Revenue over handler calls -----

  predicate NoDebts(table: Invoices) { forall o :: o in table ==> table[o].amount.amount >= 0 }

  lemma HandleRevenue(e: Event, table: Invoices, io: Io)
    requires NoDebts(table) && (e.CreatedEvent? ==> e.total.amount >= 0)
    ensures NoDebts(Handle(e, table, io).0) && Revenue(table) <= Revenue(Handle(e, table, io).0)
  {
    var after, o := Handle(e, table, io).0, e.orderId;
    if after != table {
      assert after == table[o := after[o]];
      RevenueWrite(table, o, after[o]);
    }
  }

  /** Whatever is delivered and whatever fails, the revenue never falls, as long as no amount is negative. */
  lemma {:induction false} HistoryRevenue(calls: seq<(Event, Io)>, table: Invoices, i: nat, j: nat)
    requires i <= j <= |calls| && NoDebts(table)
    requires forall k :: 0 <= k < |calls| && calls[k].0.CreatedEvent? ==> calls[k].0.total.amount >= 0
    ensures Revenue(History(calls, table)[i]) <= Revenue(History(calls, table)[j])
  {
    if j > 0 {
      var next := Handle(calls[0].0, table, calls[0].1).0;
      HandleRevenue(calls[0].0, table, calls[0].1);
      HistoryRevenue(calls[1..], next, if i > 0 then i - 1 else 0, j - 1);
    }
  }

  // ----- Statistics -----

  ghost function Rows(table: Invoices, keys: set<OrderId>): Invoices {
    map o | o in table && o in keys :: table[o]
  }

  /** The aggregates over the PAID rows among the keys. */
  ghost predicate Aggregated(table: Invoices, keys: set<OrderId>, count: nat, sum: int) {
    count == Count(Rows(table, keys), InvoicePaid) && sum == Revenue(Rows(table, keys))
  }

  lemma NoRows(table: Invoices)
    ensures Aggregated(table, table.Keys - table.Keys, 0, 0)
  {
    assert Rows(table, table.Keys - table.Keys) == map[];
  }

  lemma AllRows(table: Invoices, count: nat, sum: int)
    requires Aggregated(table, table.Keys - {}, count, sum)
    ensures count == Count(table, InvoicePaid) && sum == Revenue(table)
  {
    assert Rows(table, table.Keys - {}) == table;
  }

  lemma NextRow(table: Invoices, rest: set<OrderId>, o: OrderId, count: nat, sum: int)
    requires o in table && o in rest && Aggregated(table, table.Keys - rest, count, sum)
    ensures var seen := table.Keys - (rest - {o});
            if table[o].status == InvoicePaid then Aggregated(table, seen, count + 1, sum + table[o].amount.amount)
            else Aggregated(table, seen, count, sum)
  {
    var part := Rows(table, table.Keys - rest);
    assert Rows(table, table.Keys - (rest - {o})) == part[o := table[o]];
    CountWrite(part, o, table[o], InvoicePaid);
    RevenueWrite(part, o, table[o]);
  }

  /** COUNT(*) and COALESCE(SUM(amount), 0) over the PAID rows. */
  method AggregatePaid(table: Invoices) returns (count: nat, sum: int)
    ensures count == Count(table, InvoicePaid) && sum == Revenue(table)
  {
    var rest := table.Keys;
    count, sum := 0, 0;
    NoRows(table);
    while rest != {}
      invariant rest <= table.Keys
      invariant Aggregated(table, table.Keys - rest, count, sum)
      decreases rest
    {
      var o :| o in rest;
      NextRow(table, rest, o, count, sum);
      if table[o].status == InvoicePaid {
        count, sum := count + 1, sum + table[o].amount.amount;
      }
      rest := rest - {o};
    }
    AllRows(table, count, sum);
  }

  /** Which of the four queries fail. */
  datatype StatsIo = StatsIo(paidOk: bool, totalOk: bool, pendingOk: bool, cancelledOk: bool)

  class InvoiceReadRepository {
    const db: BillingDb

    constructor (db: BillingDb)
      ensures this.db == db
    {
      this.db := db;
    }

    /** The fields are filled one query at a time over one snapshot, and any failure discards them all. The
        total is the sum of the three state counts, and the revenue the sum over the PAID invoices. */
    method GetStats(io: StatsIo) returns (r: Option<BillingStats>)
      ensures r.Some? <==> io.paidOk && io.totalOk && io.pendingOk && io.cancelledOk
      ensures r.Some? ==>
                var stats := r.value;
                && stats.paid == Count(db.invoices, InvoicePaid) && stats.pending == Count(db.invoices, InvoicePending)
                && stats.cancelled == Count(db.invoices, InvoiceCancelled)
                && stats.total == stats.paid + stats.pending + stats.cancelled
                && stats.revenue == Money(Revenue(db.invoices), "USD")
    {
      var stats := BillingStats(0, 0, 0, 0, Money(0, ""));
      if !io.paidOk {
        return None;
      }
      var count, sum := AggregatePaid(db.invoices);
      stats := stats.(paid := count, revenue := Money(sum, "USD"));
      if !io.totalOk {
        return None;
      }
      stats := stats.(total := |db.invoices|);
      if !io.pendingOk {
        return None;
      }
      stats := stats.(pending := Count(db.invoices, InvoicePending));
      if !io.cancelledOk {
        return None;
      }
      stats := stats.(cancelled := Count(db.invoices, InvoiceCancelled));
      CountsPartition(db.invoices);
      return Some(stats);
    }
  }
}

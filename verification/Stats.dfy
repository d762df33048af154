/** billing_service/internal/repository/invoice_read.go: counts and revenue over the invoice table. */
module Stats {
  import opened Domain
  import opened Billing

  /** The sum of a finite map's values. */
  ghost function SumMap(m: map<OrderId, int>): int {
    if m == map[] then 0
    else
      var k :| k in m;
      m[k] + SumMap(m - {k})
  }

  /** Any key may be summed first. */
  lemma {:induction false} SumPick(m: map<OrderId, int>, k: OrderId)
    requires k in m
    ensures SumMap(m) == m[k] + SumMap(m - {k})
    decreases |m|
  {
    var j :| j in m && SumMap(m) == m[j] + SumMap(m - {j});
    if j != k {
      SumPick(m - {j}, k);
      SumPick(m - {k}, j);
      assert m - {j} - {k} == m - {k} - {j};
    }
  }

  lemma SumAdd(m: map<OrderId, int>, k: OrderId, v: int)
    requires k !in m
    ensures SumMap(m[k := v]) == SumMap(m) + v
  {
    SumPick(m[k := v], k);
    assert m[k := v] - {k} == m;
  }

  function WithStatus(table: Invoices, status: InvoiceStatus): set<OrderId> {
    set o | o in table && table[o].status == status
  }

  function Count(table: Invoices, status: InvoiceStatus): nat { |WithStatus(table, status)| }

  function PaidAmounts(table: Invoices): map<OrderId, int> {
    map o | o in table && table[o].status == InvoicePaid :: table[o].amount.amount
  }

  ghost function Revenue(table: Invoices): int { SumMap(PaidAmounts(table)) }

  /** Every invoice is in exactly one of the three states. */
  lemma CountsPartition(table: Invoices)
    ensures |table| == Count(table, InvoicePaid) + Count(table, InvoicePending) + Count(table, InvoiceCancelled)
  {
    var paid, pending, cancelled :=
      WithStatus(table, InvoicePaid), WithStatus(table, InvoicePending), WithStatus(table, InvoiceCancelled);
    assert table.Keys == paid + pending + cancelled;
    assert paid !! pending && (paid + pending) !! cancelled;
  }

  /** The contribution of one row to the count of a status. */
  function Share(table: Invoices, o: OrderId, status: InvoiceStatus): int {
    if o in table && table[o].status == status then 1 else 0
  }

  /** Writing one row changes a count by what the row contributes. */
  lemma CountWrite(table: Invoices, o: OrderId, inv: Invoice, status: InvoiceStatus)
    ensures Count(table[o := inv], status) - Count(table, status)
            == Share(table[o := inv], o, status) - Share(table, o, status)
  {
    OthersStay(table, o, inv, status);
    Without(WithStatus(table, status), o);
    Without(WithStatus(table[o := inv], status), o);
  }

  lemma OthersStay(table: Invoices, o: OrderId, inv: Invoice, status: InvoiceStatus)
    ensures WithStatus(table[o := inv], status) - {o} == WithStatus(table, status) - {o}
  {
    forall p | p != o ensures p in WithStatus(table[o := inv], status) <==> p in WithStatus(table, status) {
    }
  }

  lemma Without(s: set<OrderId>, o: OrderId)
    ensures |s| == |s - {o}| + if o in s then 1 else 0
  {
    if o in s {
      assert s == (s - {o}) + {o};
    } else {
      assert s - {o} == s;
    }
  }

  /** Making one invoice PAID adds its amount to the revenue; no other write does anything, as long as a PAID
      invoice stays PAID for its amount. */
  lemma RevenueWrite(table: Invoices, o: OrderId, inv: Invoice)
    requires o in table && table[o].status == InvoicePaid ==>
               inv.status == InvoicePaid && inv.amount.amount == table[o].amount.amount
    ensures Revenue(table[o := inv]) - Revenue(table)
            == if inv.status == InvoicePaid && Share(table, o, InvoicePaid) == 0 then inv.amount.amount else 0
  {
    var before, after := PaidAmounts(table), PaidAmounts(table[o := inv]);
    if inv.status == InvoicePaid && Share(table, o, InvoicePaid) == 0 {
      assert after == before[o := inv.amount.amount];
      SumAdd(before, o, inv.amount.amount);
    } else {
      assert after == before;
    }
  }

  datatype BillingStats = BillingStats(total: int, paid: int, pending: int, cancelled: int, revenue: Money)
}

/** billing_service/internal/service/billing.go over billing_service/internal/repository/billing_repo.go:
    the invoice state machine as a function of the invoice table. */
module Billing {
  import opened Prelude
  import opened Domain
  import opened DedupKey

  /** The invoices table; order_id is its unique index. */
  type Invoices = map<OrderId, Invoice>

  /** What a handler does with the invoice its Get returned. */
  datatype Decision = Finish | Reject(error: ErrorCode) | Proceed

  /** Get's failures and missing rows look the same to every handler. */
  function Decide(e: Event, found: Option<Invoice>): Decision {
    match e
    case CreatedEvent(_, _, _, _) => if found.Some? then Finish else Proceed
    case PaidEvent(_, _) =>
      if found.None? then Reject(NotFound)
      else if found.value.status != InvoicePending then Reject(InvalidState)
      else Proceed
    case CancelledEvent(_, _) =>
      if found.None? then Reject(NotFound)
      else if found.value.status == InvoicePaid then Reject(InvalidState)
      else if found.value.status == InvoiceCancelled then Finish
      else if found.value.status != InvoicePending then Reject(InvalidState)
      else Proceed
  }

  function Find(table: Invoices, o: OrderId, readOk: bool): Option<Invoice> {
    if readOk && o in table then Some(table[o]) else None
  }

  /** The row operation behind each handler: Create refuses a second invoice for an order, UpdateStatus
      touches the row whatever its status and fails when there is none. */
  function Written(e: Event, invoiceId: string, table: Invoices): Option<Invoices> {
    var o := e.orderId;
    match e
    case CreatedEvent(_, total, _, at) =>
      if o in table then None else Some(table[o := Invoice(invoiceId, o, total, InvoicePending, at, None)])
    case PaidEvent(_, at) =>
      if o !in table then None else Some(table[o := table[o].(status := InvoicePaid, paidAt := Some(at))])
    case CancelledEvent(_, _) =>
      if o !in table then None else Some(table[o := table[o].(status := InvoiceCancelled)])
  }

  /** The table and the handler's error after the write. */
  function Write(e: Event, invoiceId: string, table: Invoices, ack: Ack): (Invoices, Option<ErrorCode>) {
    var written := Written(e, invoiceId, table);
    if written.None? then (table, Some(Internal))
    else (if ack.Effective() then written.value else table, if ack.Acked? then None else Some(Internal))
  }

  /** The outside world during one handler call. */
  datatype Io = Io(readOk: bool, panics: bool, ack: Ack, invoiceId: string)

  /** A handler call that no other consumer interleaves with. */
  function Handle(e: Event, table: Invoices, io: Io): (Invoices, Option<ErrorCode>) {
    if io.panics then (table, Some(Panic))
    else
      match Decide(e, Find(table, e.orderId, io.readOk))
      case Finish => (table, None)
      case Reject(error) => (table, Some(error))
      case Proceed => Write(e, io.invoiceId, table, io.ack)
  }

  /** The handlers, outcome by outcome. An invoice that was read (seen) decides; a creation proceeds without
      one, a payment or cancellation over a PENDING one. */
  lemma HandleOutcome(e: Event, table: Invoices, io: Io)
    ensures
      var o := e.orderId;
      var (after, error) := Handle(e, table, io);
      var seen := io.readOk && o in table;
      var proceeds := if e.CreatedEvent? then !seen else seen && table[o].status == InvoicePending;
      var refused := e.CreatedEvent? && o in table;
      if io.panics then after == table && error == Some(Panic)
      else
        && (error == Some(NotFound) <==> !e.CreatedEvent? && !seen)
        && (error == Some(InvalidState) <==>
              seen && ((e.PaidEvent? && table[o].status != InvoicePending)
                       || (e.CancelledEvent? && table[o].status == InvoicePaid)))
        && (error == Some(Internal) <==> proceeds && (refused || !io.ack.Acked?))
        && (error == None <==>
              || (proceeds && !refused && io.ack.Acked?)
              || (seen && (e.CreatedEvent? || (e.CancelledEvent? && table[o].status == InvoiceCancelled))))
        && (!proceeds || refused || io.ack.Lost? ==> after == table)
        && (proceeds && !refused && !io.ack.Lost? ==>
              && o in after
              && (forall p :: p != o ==> (p in after <==> p in table) && (p in table ==> after[p] == table[p]))
              && match e
                 case CreatedEvent(_, total, _, createdAt) =>
                   after[o] == Invoice(io.invoiceId, o, total, InvoicePending, createdAt, None)
                 case PaidEvent(_, paidAt) =>
                   after[o] == Invoice(table[o].id, table[o].orderId, table[o].amount, InvoicePaid,
                                       table[o].createdAt, Some(paidAt))
                 case CancelledEvent(_, _) =>
                   after[o] == Invoice(table[o].id, table[o].orderId, table[o].amount, InvoiceCancelled,
                                       table[o].createdAt, table[o].paidAt))
  {
  }

  // ----- Life cycle of one order's invoice -----

  function StatusOf(table: Invoices, o: OrderId): Option<InvoiceStatus> {
    if o in table then Some(table[o].status) else None
  }

  /** One move along absent, PENDING, one terminal state; a terminal invoice is frozen entirely, and
      id, amount and creation time never change. */
  predicate Advances(before: Invoices, after: Invoices, o: OrderId) {
    if o !in before then o in after ==> after[o].status == InvoicePending
    else
      && o in after
      && after[o].id == before[o].id && after[o].amount == before[o].amount
      && after[o].createdAt == before[o].createdAt
      && (before[o].status != InvoicePending ==> after[o] == before[o])
  }

  lemma HandleAdvances(e: Event, table: Invoices, io: Io, o: OrderId)
    ensures Advances(table, Handle(e, table, io).0, o)
  {
  }

  /** The tables after each of a sequence of handler calls, whatever is delivered and whatever fails. */
  function History(calls: seq<(Event, Io)>, table: Invoices): (h: seq<Invoices>)
    ensures |h| == |calls| + 1 && h[0] == table
  {
    if calls == [] then [table]
    else [table] + History(calls[1..], Handle(calls[0].0, table, calls[0].1).0)
  }

  /** Anywhere later in the history: never back to absent, never out of a terminal state. */
  predicate Descends(before: Invoices, after: Invoices, o: OrderId) {
    o in before ==>
      && o in after
      && after[o].id == before[o].id && after[o].amount == before[o].amount
      && after[o].createdAt == before[o].createdAt
      && (before[o].status != InvoicePending ==> after[o] == before[o])
  }

  /** Every step of every history advances, so one order's states are a prefix of absent, PENDING and
      one terminal state, each entered at most once. */
  lemma {:induction false} EffectOnce(calls: seq<(Event, Io)>, table: Invoices, o: OrderId, i: nat, j: nat)
    requires i <= j <= |calls|
    ensures var h := History(calls, table);
            Descends(h[i], h[j], o) && (j == i + 1 ==> Advances(h[i], h[j], o))
  {
    if calls != [] {
      var next := Handle(calls[0].0, table, calls[0].1).0;
      HandleAdvances(calls[0].0, table, calls[0].1, o);
      if i > 0 {
        EffectOnce(calls[1..], next, o, i - 1, j - 1);
      } else if j > 0 {
        EffectOnce(calls[1..], next, o, 0, j - 1);
      }
    }
  }

  // ----- Deduplication -----

  /** A message as the consumer processes it: the answer of the Exists check, the up to three handler
      attempts, whether the context ends the retries, and the fate of Save. */
  datatype Delivery = Delivery(event: Event, checkOk: bool, attempts: seq<Io>, save: Ack)

  function Key(e: Event): string { EventKey(e.Type().Name(), e.orderId) }

  /** Attempts in turn until one succeeds; the flag tells whether one did. */
  function Attempt(e: Event, table: Invoices, attempts: seq<Io>): (Invoices, bool)
    decreases attempts
  {
    if attempts == [] then (table, false)
    else
      var (after, error) := Handle(e, table, attempts[0]);
      if error == None then (after, true) else Attempt(e, after, attempts[1..])
  }

  datatype Ledger = Ledger(invoices: Invoices, processed: set<string>)

  function Deliver(d: Delivery, l: Ledger, dedup: bool): Ledger {
    if dedup && d.checkOk && Key(d.event) in l.processed then l
    else
      var (after, ok) := Attempt(d.event, l.invoices, d.attempts);
      Ledger(after, if ok && d.save.Effective() then l.processed + {Key(d.event)} else l.processed)
  }

  function DeliverAll(ds: seq<Delivery>, l: Ledger, dedup: bool): Ledger {
    if ds == [] then l else DeliverAll(ds[1..], Deliver(ds[0], l, dedup), dedup)
  }

  /** The event has had its effect. */
  predicate Effected(e: Event, table: Invoices) {
    e.orderId in table &&
    match e
    case CreatedEvent(_, _, _, _) => true
    case PaidEvent(_, _) => table[e.orderId].status == InvoicePaid
    case CancelledEvent(_, _) => table[e.orderId].status == InvoiceCancelled
  }

  /** Success means the effect is there; once there it stays, and the handler is a no-op. */
  lemma EffectedFacts(e: Event, e': Event, table: Invoices, io: Io)
    ensures Handle(e, table, io).1 == None ==> Effected(e, Handle(e, table, io).0)
    ensures Effected(e, table) ==> Handle(e, table, io).0 == table
    ensures Effected(e, table) ==> Effected(e, Handle(e', table, io).0)
  {
  }

  lemma {:induction false} AttemptFacts(e: Event, e': Event, table: Invoices, attempts: seq<Io>)
    ensures Attempt(e, table, attempts).1 ==> Effected(e, Attempt(e, table, attempts).0)
    ensures Effected(e, table) ==> Attempt(e, table, attempts).0 == table
    ensures Effected(e, table) ==> Effected(e, Attempt(e', table, attempts).0)
    decreases attempts
  {
    if attempts != [] {
      EffectedFacts(e, e', table, attempts[0]);
      EffectedFacts(e', e, table, attempts[0]);
      AttemptFacts(e, e', Handle(e, table, attempts[0]).0, attempts[1..]);
      AttemptFacts(e, e', Handle(e', table, attempts[0]).0, attempts[1..]);
    }
  }

  /** Every key the ledger remembers stands for an event that has had its effect. */
  ghost predicate Remembers(l: Ledger) {
    forall e: Event :: Key(e) in l.processed ==> Effected(e, l.invoices)
  }

  /** Whether an event is in effect depends on its key alone. */
  lemma KeyDecides(e: Event, e': Event, table: Invoices)
    requires Key(e) == Key(e')
    ensures Effected(e, table) == Effected(e', table)
  {
    EventKeyInjective(e.Type(), e.orderId, e'.Type(), e'.orderId);
  }

  /** For any delivered sequence, with any failures of handlers, checks and saves, the invoice table with
      the Exists check equals the table when Exists always answers false. */
  lemma {:induction false} DedupRefines(ds: seq<Delivery>, l: Ledger, l': Ledger)
    requires Remembers(l) && l.invoices == l'.invoices
    ensures DeliverAll(ds, l, true).invoices == DeliverAll(ds, l', false).invoices
  {
    if ds != [] {
      var d := ds[0];
      AttemptFacts(d.event, d.event, l.invoices, d.attempts);
      forall e: Event | Key(e) in Deliver(d, l, true).processed
        ensures Effected(e, Deliver(d, l, true).invoices)
      {
        AttemptFacts(e, d.event, l.invoices, d.attempts);
        if Key(e) == Key(d.event) {
          KeyDecides(e, d.event, Deliver(d, l, true).invoices);
        }
      }
      DedupRefines(ds[1..], Deliver(d, l, true), Deliver(d, l', false));
    }
  }

  /** From the empty tables the premise holds. */
  lemma DedupIsTransparent(ds: seq<Delivery>)
    ensures DeliverAll(ds, Ledger(map[], {}), true).invoices == DeliverAll(ds, Ledger(map[], {}), false).invoices
  {
    DedupRefines(ds, Ledger(map[], {}), Ledger(map[], {}));
  }

  /** Dropping every repetition of a key, whether or not its first occurrence succeeded. */
  function KeepFirst(ds: seq<Delivery>, seen: set<string>): seq<Delivery> {
    if ds == [] then []
    else if Key(ds[0].event) in seen then KeepFirst(ds[1..], seen)
    else [ds[0]] + KeepFirst(ds[1..], seen + {Key(ds[0].event)})
  }

  /** Skipping is sound only after a success: a payment that overtakes its order's creation fails, and
      only its redelivery settles the invoice. */
  lemma KeepFirstIsWrong(o: OrderId, total: Money, at: int)
    ensures var fine := [Io(true, false, Acked, "i")];
            var paid := Delivery(PaidEvent(o, at), true, fine, Acked);
            var created := Delivery(CreatedEvent(o, total, [], at), true, fine, Acked);
            var ds := [paid, created, paid];
            var none := Ledger(map[], {});
            && StatusOf(DeliverAll(ds, none, true).invoices, o) == Some(InvoicePaid)
            && StatusOf(DeliverAll(KeepFirst(ds, {}), none, true).invoices, o) == Some(InvoicePending)
  {
    var io := Io(true, false, Acked, "i");
    var paid := Delivery(PaidEvent(o, at), true, [io], Acked);
    var created := Delivery(CreatedEvent(o, total, [], at), true, [io], Acked);
    var none := Ledger(map[], {});
    if Key(paid.event) == Key(created.event) {
      EventKeyInjective(OrderPaid, o, OrderCreated, o);
    }
    OneAttempt(paid.event, map[], io);
    assert Deliver(paid, none, true) == none;
    OneAttempt(created.event, map[], io);
    var l := Deliver(created, none, true);
    assert StatusOf(l.invoices, o) == Some(InvoicePending) && Key(paid.event) !in l.processed;
    OneAttempt(paid.event, l.invoices, io);
    DeliverPair(paid, created, none, true);
    assert [paid, created, paid][1..] == [created, paid];
    DeliverPair(created, paid, none, true);
    assert KeepFirst([paid, created, paid], {}) == [paid, created] by {
      var seen := {} + {Key(paid.event)};
      assert [created, paid][1..] == [paid] && [paid][1..] == [];
      assert KeepFirst([paid], seen + {Key(created.event)}) == KeepFirst([], seen + {Key(created.event)});
      assert KeepFirst([created, paid], seen) == [created] + KeepFirst([paid], seen + {Key(created.event)});
    }
  }

  lemma OneAttempt(e: Event, table: Invoices, io: Io)
    ensures Attempt(e, table, [io]) == (Handle(e, table, io).0, Handle(e, table, io).1 == None)
  {
    assert [io][1..] == [];
  }

  lemma DeliverPair(a: Delivery, b: Delivery, l: Ledger, dedup: bool)
    ensures DeliverAll([a, b], l, dedup) == Deliver(b, Deliver(a, l, dedup), dedup)
  {
    assert [a, b][1..] == [b] && [b][1..] == [];
    assert DeliverAll([b], Deliver(a, l, dedup), dedup) == Deliver(b, Deliver(a, l, dedup), dedup);
  }
}

/** The whole system as a transition relation: order requests, the outbox relay, three topics of
    append-only partitions, one consumer per topic, and crashes of either service. */
module Protocol {
  import opened Prelude
  import opened Domain
  import opened Dispatch
  import opened Outbox
  import opened Billing
  import opened DedupKey
  import opened Pricing

  const MAX_ATTEMPTS: nat := 3

  datatype Partition = Partition(topic: Topic, number: nat)

  datatype Slot = Slot(at: Partition, offset: nat)

  type Logs = map<Partition, seq<Message>>

  /** A MarkOrderPaid or CancelOrder request between its read and its transaction. */
  datatype Request = Request(order: Order, target: OrderStatus)

  /** The rest of the batch the relay fetched, and whether its head was published but not yet marked. */
  datatype RelayState = RelayState(batch: seq<OutboxRow>, published: bool)

  /** The order service: its two tables, and what its requests and its relay hold in memory. */
  datatype Sales = Sales(
    orders: map<OrderId, Order>,
    outbox: seq<OutboxRow>,
    requests: map<nat, Request>,
    relay: RelayState)

  /** Where a consumer is with the message it fetched last. */
  datatype Phase =
    | Idle
    | Fetched(slot: Slot)
    | Handling(slot: Slot, attempt: nat)
    | Writing(slot: Slot, attempt: nat)
    | Succeeded(slot: Slot)
    | Failed(slot: Slot, error: ErrorCode)
    | Settling(slot: Slot)

  datatype Reason = HandlerFailed(error: ErrorCode) | RefusedPayload

  /** An attempted send to the DLQ; Send reports nothing back. */
  datatype DeadLetter = DeadLetter(slot: Slot, reason: Reason)

  /** The billing service: consumers, fetch positions and committed offsets, its two tables and the DLQ
      sends it attempted. The last two fields are history: the slots whose handler returned nil, and
      the slots skipped as already processed. */
  datatype Office = Office(
    phases: map<Topic, Phase>,
    position: map<Partition, nat>,
    committed: map<Partition, nat>,
    invoices: Invoices,
    processed: set<string>,
    letters: seq<DeadLetter>,
    done: set<Slot>,
    skipped: set<Slot>)

  datatype State = State(sales: Sales, logs: Logs, office: Office)

  datatype Action =
    | CreateOrder(order: Order, rowId: string, rowTime: int)
    | ReadOrder(request: nat, id: OrderId, target: OrderStatus)
    | WriteOrder(request: nat, eventTime: int, rowId: string, rowTime: int)
    | DropRequest(request: nat)
    | OrderServiceCrash
    | RelayFetch(limit: nat, batch: seq<OutboxRow>)
    | RelayPublish(number: nat, ack: Ack)
    | RelayMark(ack: Ack)
    | Fetch(at: Partition)
    | Check(topic: Topic, ok: bool)
    | Get(topic: Topic, ok: bool, cancelled: bool)
    | Put(topic: Topic, ack: Ack, invoiceId: string, cancelled: bool)
    | Fault(topic: Topic, cancelled: bool)
    | Bury(topic: Topic)
    | Save(topic: Topic, ack: Ack)
    | Commit(topic: Topic, ack: Ack)
    | Forget(keys: set<string>)
    | BillingServiceCrash
  {
    predicate OfSales() {
      CreateOrder? || ReadOrder? || WriteOrder? || DropRequest? || OrderServiceCrash?
      || RelayFetch? || RelayPublish? || RelayMark?
    }
  }

  const INIT: State :=
    State(Sales(map[], [], map[], RelayState([], false)), map[],
          Office(map[], map[], map[], map[], {}, [], {}, {}))

  function Log(logs: Logs, at: Partition): seq<Message> { if at in logs then logs[at] else [] }

  function PhaseOf(b: Office, t: Topic): Phase { if t in b.phases then b.phases[t] else Idle }

  function Position(b: Office, at: Partition): nat { if at in b.position then b.position[at] else 0 }

  /** Offsets below this one are not fetched again; kafka-go commits offset + 1. */
  function Committed(b: Office, at: Partition): nat { if at in b.committed then b.committed[at] else 0 }

  predicate InLog(logs: Logs, slot: Slot) { slot.offset < |Log(logs, slot.at)| }

  function MessageAt(logs: Logs, slot: Slot): Message
    requires InLog(logs, slot)
  {
    Log(logs, slot.at)[slot.offset]
  }

  function KeyAt(logs: Logs, slot: Slot): string
    requires InLog(logs, slot)
  {
    KeyOf(MessageAt(logs, slot), slot.at.number, slot.offset)
  }

  function DecodedAt(logs: Logs, slot: Slot): Decoded
    requires InLog(logs, slot)
  {
    Decode(MessageAt(logs, slot).topic, MessageAt(logs, slot).value)
  }

  // ----- The order service and its relay -----

  function EventFor(order: Order, target: OrderStatus, eventTime: int): Event {
    match target
    case StatusCreated => CreatedEvent(order.id, order.total, order.items, order.createdAt)
    case StatusPaid => PaidEvent(order.id, eventTime)
    case StatusCancelled => CancelledEvent(order.id, eventTime)
  }

  /** An order as CreateOrder accepts it: validated items, and their total in US cents. */
  predicate Priced(order: Order) {
    ValidItems(order.items) && Total(order.items) == Ok(order.total.amount) && order.total.currency == "USD"
  }

  ghost predicate SalesEnabled(s: Sales, a: Action)
    requires a.OfSales()
  {
    match a
    case CreateOrder(order, rowId, _) =>
      && order.id != "" && order.id !in s.orders && FreshId(s.outbox, rowId)
      && order.status == StatusCreated && Priced(order)
    case ReadOrder(r, id, target) =>
      && r !in s.requests && id in s.orders && target != StatusCreated
      && s.orders[id].status == StatusCreated
    case WriteOrder(r, _, rowId, _) => r in s.requests && FreshId(s.outbox, rowId)
    case DropRequest(r) => r in s.requests
    case OrderServiceCrash => true
    case RelayFetch(limit, batch) => s.relay.batch == [] && IsFetch(s.outbox, limit, batch)
    case RelayPublish(_, _) => s.relay.batch != [] && !s.relay.published
    case RelayMark(_) => s.relay.batch != [] && s.relay.published
  }

  /** The transaction of writeWithOutbox: the whole order row is saved and one outbox row inserted. */
  function Transact(s: Sales, order: Order, row: OutboxRow): Sales {
    s.(orders := s.orders[order.id := order], outbox := s.outbox + [row])
  }

  /** The order as a request writes it, and the row that goes with it. */
  function Outcome(q: Request): Order { q.order.(status := q.target) }

  ghost function SalesEffect(s: Sales, a: Action): Sales
    requires a.OfSales() && SalesEnabled(s, a)
  {
    match a
    case CreateOrder(order, rowId, rowTime) =>
      Transact(s, order, NewRow(rowId, EventFor(order, StatusCreated, 0), rowTime))
    case ReadOrder(r, id, target) => s.(requests := s.requests[r := Request(s.orders[id], target)])
    case WriteOrder(r, eventTime, rowId, rowTime) =>
      var q := s.requests[r];
      Transact(s, Outcome(q), NewRow(rowId, EventFor(q.order, q.target, eventTime), rowTime))
      .(requests := s.requests - {r})
    case DropRequest(r) => s.(requests := s.requests - {r})
    case OrderServiceCrash => s.(requests := map[], relay := RelayState([], false))
    case RelayFetch(_, batch) => s.(relay := RelayState(batch, false))
    case RelayPublish(_, ack) =>
      s.(relay := if ack.Acked? then RelayState(s.relay.batch, true) else RelayState(s.relay.batch[1..], false))
    case RelayMark(ack) =>
      s.(outbox := if ack.Effective() then MarkSent(s.outbox, s.relay.batch[0].id) else s.outbox,
         relay := RelayState(s.relay.batch[1..], false))
  }

  function Append(logs: Logs, at: Partition, m: Message): Logs { logs[at := Log(logs, at) + [m]] }

  /** Only a publication writes the logs, and it appends the head of the relay's batch; the balancer
      is free to choose any partition of the row's topic. */
  function LogsEffect(s: Sales, logs: Logs, a: Action): Logs
    requires a.RelayPublish? ==> s.relay.batch != []
  {
    if a.RelayPublish? && a.ack.Effective()
    then Append(logs, Partition(s.relay.batch[0].topic, a.number), MessageOf(s.relay.batch[0]))
    else logs
  }

  // ----- The billing consumers -----

  /** Retry after a failed attempt: another attempt, the context's error, or the last error. */
  function AfterError(slot: Slot, attempt: nat, error: ErrorCode, cancelled: bool): Phase {
    if attempt + 1 >= MAX_ATTEMPTS then Failed(slot, error)
    else if cancelled then Failed(slot, Shutdown)
    else Handling(slot, attempt + 1)
  }

  predicate OfficeEnabled(b: Office, logs: Logs, a: Action)
    requires !a.OfSales()
  {
    match a
    case Fetch(at) => PhaseOf(b, at.topic).Idle? && Position(b, at) < |Log(logs, at)|
    case Check(t, _) => PhaseOf(b, t).Fetched? && InLog(logs, PhaseOf(b, t).slot)
    case Get(t, _, _) => PhaseOf(b, t).Handling? && InLog(logs, PhaseOf(b, t).slot)
    case Put(t, _, _, _) =>
      PhaseOf(b, t).Writing? && InLog(logs, PhaseOf(b, t).slot) && DecodedAt(logs, PhaseOf(b, t).slot).Parsed?
    case Fault(t, _) => PhaseOf(b, t).Handling? || PhaseOf(b, t).Writing?
    case Bury(t) => PhaseOf(b, t).Failed?
    case Save(t, _) => PhaseOf(b, t).Succeeded? && InLog(logs, PhaseOf(b, t).slot)
    case Commit(t, _) => PhaseOf(b, t).Settling?
    case Forget(_) => true
    case BillingServiceCrash => true
  }

  function Enter(b: Office, t: Topic, phase: Phase): Office { b.(phases := b.phases[t := phase]) }

  /** The handler returned nil. */
  function Succeed(b: Office, t: Topic, slot: Slot): Office {
    Enter(b, t, Succeeded(slot)).(done := b.done + {slot})
  }

  function AfterGet(b: Office, d: Decoded, t: Topic, slot: Slot, attempt: nat, ok: bool, cancelled: bool): Office {
    match d
    case UnknownTopic => Succeed(b, t, slot)
    case Refused => Succeed(b, t, slot).(letters := b.letters + [DeadLetter(slot, RefusedPayload)])
    case Parsed(e) =>
      match Decide(e, Find(b.invoices, e.orderId, ok))
      case Finish => Succeed(b, t, slot)
      case Reject(error) => Enter(b, t, AfterError(slot, attempt, error, cancelled))
      case Proceed => Enter(b, t, Writing(slot, attempt))
  }

  function AfterPut(b: Office, e: Event, t: Topic, slot: Slot, attempt: nat,
                    ack: Ack, invoiceId: string, cancelled: bool): Office
  {
    var (table, error) := Write(e, invoiceId, b.invoices, ack);
    (if error == None then Succeed(b, t, slot)
     else Enter(b, t, AfterError(slot, attempt, error.value, cancelled))).(invoices := table)
  }

  /** Save inserts under a primary key: it fails without effect when the key is already there, and a
      failed Save returns without committing. */
  function AfterSave(b: Office, key: string, t: Topic, slot: Slot, ack: Ack): Office {
    if key in b.processed then Enter(b, t, Idle)
    else Enter(b, t, if ack.Acked? then Settling(slot) else Idle)
         .(processed := if ack.Effective() then b.processed + {key} else b.processed)
  }

  function OfficeEffect(b: Office, logs: Logs, a: Action): Office
    requires !a.OfSales() && OfficeEnabled(b, logs, a)
  {
    match a
    case Fetch(at) =>
      Enter(b, at.topic, Fetched(Slot(at, Position(b, at)))).(position := b.position[at := Position(b, at) + 1])
    case Check(t, ok) =>
      var slot := PhaseOf(b, t).slot;
      if ok && KeyAt(logs, slot) in b.processed
      then Enter(b, t, Settling(slot)).(skipped := b.skipped + {slot})
      else Enter(b, t, Handling(slot, 0))
    case Get(t, ok, cancelled) =>
      var p := PhaseOf(b, t);
      AfterGet(b, DecodedAt(logs, p.slot), t, p.slot, p.attempt, ok, cancelled)
    case Put(t, ack, invoiceId, cancelled) =>
      var p := PhaseOf(b, t);
      AfterPut(b, DecodedAt(logs, p.slot).event, t, p.slot, p.attempt, ack, invoiceId, cancelled)
    case Fault(t, cancelled) =>
      var p := PhaseOf(b, t);
      Enter(b, t, AfterError(p.slot, p.attempt, Panic, cancelled))
    case Bury(t) =>
      var p := PhaseOf(b, t);
      Enter(b, t, Settling(p.slot)).(letters := b.letters + [DeadLetter(p.slot, HandlerFailed(p.error))])
    case Save(t, ack) =>
      var slot := PhaseOf(b, t).slot;
      AfterSave(b, KeyAt(logs, slot), t, slot, ack)
    case Commit(t, ack) =>
      var slot := PhaseOf(b, t).slot;
      Enter(b, t, Idle).(committed := if ack.Effective() then b.committed[slot.at := slot.offset + 1] else b.committed)
    case Forget(keys) => b.(processed := b.processed - keys)
    case BillingServiceCrash => b.(phases := map[], position := b.committed)
  }

  // ----- Runs -----

  ghost predicate Enabled(s: State, a: Action) {
    if a.OfSales() then SalesEnabled(s.sales, a) else OfficeEnabled(s.office, s.logs, a)
  }

  /** Actions that are not enabled leave the state alone, so every sequence of actions is a run. */
  ghost function Apply(s: State, a: Action): State {
    if !Enabled(s, a) then s
    else if a.OfSales() then State(SalesEffect(s.sales, a), LogsEffect(s.sales, s.logs, a), s.office)
    else s.(office := OfficeEffect(s.office, s.logs, a))
  }

  ghost function Exec(s: State, acts: seq<Action>): State {
    if acts == [] then s else Apply(Exec(s, acts[..|acts| - 1]), acts[|acts| - 1])
  }

  /** A run every action of which was enabled. */
  ghost predicate Valid(s: State, acts: seq<Action>) {
    acts != [] ==>
      Valid(s, acts[..|acts| - 1]) && Enabled(Exec(s, acts[..|acts| - 1]), acts[|acts| - 1])
  }

  lemma ExecSnoc(s: State, acts: seq<Action>, a: Action)
    ensures Exec(s, acts + [a]) == Apply(Exec(s, acts), a)
    ensures Valid(s, acts + [a]) <==> Valid(s, acts) && Enabled(Exec(s, acts), a)
  {
    assert (acts + [a])[..|acts|] == acts;
  }

  lemma {:induction false} ExecAppend(s: State, acts: seq<Action>, more: seq<Action>)
    ensures Exec(s, acts + more) == Exec(Exec(s, acts), more)
    ensures Valid(s, acts + more) <==> Valid(s, acts) && Valid(Exec(s, acts), more)
  {
    if more == [] {
      assert acts + more == acts;
    } else {
      var n := |more| - 1;
      ExecAppend(s, acts, more[..n]);
      assert (acts + more)[..|acts + more| - 1] == acts + more[..n];
    }
  }
}

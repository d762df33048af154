/** The entities of both services: orders, outbox rows, Kafka messages, invoices. */
module Domain {
  import opened Prelude

  type OrderId = string

  datatype Money = Money(amount: int, currency: string)

  datatype OrderItem = OrderItem(productId: string, quantity: int, price: Money)

  datatype OrderStatus = StatusCreated | StatusPaid | StatusCancelled

  datatype Order = Order(id: OrderId, items: seq<OrderItem>, total: Money, status: OrderStatus, createdAt: int)

  datatype EventType = OrderCreated | OrderPaid | OrderCancelled {
    predicate Terminal() { !OrderCreated? }

    /** The value of the event-type header. */
    function Name(): string {
      match this
      case OrderCreated => "OrderCreated"
      case OrderPaid => "OrderPaid"
      case OrderCancelled => "OrderCancelled"
    }
  }

  /** The event an order publishes on reaching a status. */
  function EventOf(status: OrderStatus): EventType {
    match status
    case StatusCreated => OrderCreated
    case StatusPaid => OrderPaid
    case StatusCancelled => OrderCancelled
  }

  datatype Topic = CreatedTopic | PaidTopic | CancelledTopic | OtherTopic(name: string) {
    function Name(): string {
      match this
      case CreatedTopic => "order-created-topic"
      case PaidTopic => "order-paid-topic"
      case CancelledTopic => "order-cancelled-topic"
      case OtherTopic(name) => name
    }
  }

  /** The topic map both services are configured with. */
  function TopicFor(e: EventType): Topic {
    match e
    case OrderCreated => CreatedTopic
    case OrderPaid => PaidTopic
    case OrderCancelled => CancelledTopic
  }

  datatype Event =
    | CreatedEvent(orderId: OrderId, total: Money, items: seq<OrderItem>, createdAt: int)
    | PaidEvent(orderId: OrderId, paidAt: int)
    | CancelledEvent(orderId: OrderId, cancelledAt: int)
  {
    function Type(): EventType {
      match this
      case CreatedEvent(_, _, _, _) => OrderCreated
      case PaidEvent(_, _) => OrderPaid
      case CancelledEvent(_, _) => OrderCancelled
    }
  }

  /** A JSON text by the fields a consumer may look at; Malformed is whatever json.Unmarshal refuses. */
  datatype Payload =
    | Malformed(raw: string)
    | Fields(orderId: Option<OrderId>, total: Option<Money>, items: Option<seq<OrderItem>>,
             createdAt: Option<int>, paidAt: Option<int>, cancelledAt: Option<int>)

  function Encode(e: Event): Payload {
    match e
    case CreatedEvent(o, total, items, at) => Fields(Some(o), Some(total), Some(items), Some(at), None, None)
    case PaidEvent(o, at) => Fields(Some(o), None, None, None, Some(at), None)
    case CancelledEvent(o, at) => Fields(Some(o), None, None, None, None, Some(at))
  }

  function Or<T>(o: Option<T>, default: T): T {
    if o.Some? then o.value else default
  }

  datatype RowStatus = RowPending | RowSent

  datatype OutboxRow = OutboxRow(id: string, orderId: OrderId, eventType: EventType, topic: Topic,
                                 payload: Payload, status: RowStatus, createdAt: int)

  datatype Header = Header(key: string, value: string)

  datatype Message = Message(topic: Topic, key: string, headers: seq<Header>, value: Payload)

  /** The message the relay builds from an outbox row. */
  function MessageOf(row: OutboxRow): Message {
    Message(row.topic, row.orderId,
            [Header("event-type", row.eventType.Name()), Header("order-id", row.orderId)],
            row.payload)
  }

  datatype InvoiceStatus = InvoicePending | InvoicePaid | InvoiceCancelled

  datatype Invoice = Invoice(id: string, orderId: OrderId, amount: Money, status: InvoiceStatus,
                             createdAt: int, paidAt: Option<int>)

  datatype ErrorCode = NotFound | InvalidInput | Internal | InvalidState | Panic | Shutdown

  /** How a write to a database or broker can end: acknowledged, or an error that may hide
      either no effect at all or an effect whose acknowledgement was lost. */
  datatype Ack = Acked | Lost | Applied {
    predicate Effective() { !Lost? }
  }
}

# Order-to-invoice verification

This project models the order and billing services of the order-billing system and proves what
their protocol promises: how an order, its outbox rows, the Kafka messages built from them, and the
invoice at the far end stay in agreement through crashes, lost acknowledgements, republication,
redelivery, reordering between topics and interleaved consumers. A second core is the money
arithmetic: binary64 currency conversion, int64 totals, and the `amount|currency` codec.

`dafny verify dfyconfig.toml` checks everything.

## How it is built

**The protocol** (`Protocol.dfy`) is a transition relation over both databases, the partitioned
logs, the consumers' phases and offsets, and the dead letters. A request of `MarkOrderPaid` or
`CancelOrder` is two steps, its read and its transaction; the relay publishes and marks in two
steps; a billing handler is a `Get` and a separate `Put`; each service may crash between any two
steps, which drops what it held in memory and rewinds fetch positions to the committed offsets.
Every sequence of actions is a run (an action that is not enabled does nothing), so the theorems
quantify over all sequences from the empty state.

- `OrderSide.dfy`, `Delivery.dfy`, `Invoicing.dfy`: the inductive invariants, one small lemma for
  each kind of step.
- `Steps.dfy`: what publications, crashes and failed attempts do.
- `Guarantees.dfy`: the theorems over all runs; `Meeting.dfy`: how an event is lost when no call
  fails; `Gauging.dfy`: the state gauges over all runs.
- `Interleaving.dfy` and `Overtaking.dfy`, with the pieces in `Scenarios.dfy`: the runs in which an
  invoice and its order part, one for each of the two ways.

**The components** are classes and loops in the shape of the source. `Ordering.dfy` holds the order
service and its tables, `Relaying.dfy` the relay, `BillingDesk.dfy` the billing service with its
gauges and the statistics query, `Consuming.dfy` the handler, the DLQ producer and the consumer,
`Retry.dfy` the retry loop. Their contracts state the new state outright, and the order
operations, the relay and the consumer loop each return a ghost list of protocol actions of
which their effect is a run, so the theorems apply to what the components do.

**Values and arithmetic**: `Domain.dfy`, `Dispatch.dfy`, `Outbox.dfy`, `Billing.dfy`, `Stats.dfy`,
`DedupKey.dfy`, `Currency.dfy`, `Pricing.dfy`, `MoneyCodec.dfy`, `Decimal.dfy`.

## Premises

1. A nil error from `WriteMessages` means the message is in the log. The writer at
   order_service/internal/outbox/relay.go:24-27 sets no acknowledgement level, so this is about the
   library. An error may hide a message that arrived all the same; so may a database error hide a
   commit. Each write in the model ends as acknowledged, lost, or applied without acknowledgement.
   The conservation laws of the gauges need "an error had no effect" and say so
   (`BillingDesk.HonestWrites`, `BillingDesk.BillingService.HandleAll`, `Gauging.GaugesFollow`).
2. Generated identifiers are fresh. They are parameters, required not to be in use.
3. No order is both paid and cancelled: `NoConflict`, which `StateMachineIff` shows to be exactly
   that every terminal transaction meets an order that is CREATED or already where it is to go, and
   exactly that orders keep the documented state machine. These theorems about invoices and orders
   name it in their `requires`: `EndToEndSafety`, `HarmlessDeadLetters`, `MirroredIffHandled`,
   `LostIff`, `LostIffNeverMet`, `Convergence`, `StatsConverge`, `RevenueIsPayments`,
   `RevenueSteps`, `RevenueNeverFalls`, `GaugesFollow`. `InvoiceLifeCycle`, which also freezes
   `paid_at`, needs one terminal event per order, `FreshRun`; `OneTerminalIffFresh` shows that this
   is exactly that every terminal transaction meets a CREATED order. `SerialIsFresh` shows that
   serving an order's requests one at a time ensures both, and `InterleavedRequestsDiverge` that the
   code itself ensures neither.
4. `DLQProducer.Send` reports nothing, so a dead letter is a send that was attempted.
5. A partition is read in order from its first offset, and committing a message commits the offset
   after it and all before it. The three topics are distinct, and configured alike in both services.
   The balancer may choose any partition of a topic.
6. JSON is an abstract encoding by fields, with a malformed outcome.
7. The four queries of `GetStats` see one snapshot.
8. Outside the range of int64 the conversion of a float yields the minimum, as on amd64; the Go
   specification leaves it open. No theorem about totals within bounds depends on it.

## Where the code and its documentation differ

- The documentation promises that no event is ever lost. The promise fails without any fault or
  interleaving: an OrderPaid that overtakes its OrderCreated is refused three times, dead-lettered
  and committed over (`LostPayment`). `LostIff` says exactly when an order's last event is lost, and
  `LostIffNeverMet` what that means for the order of deliveries when no call fails.
- 0.011 is not a binary fraction: 230 roubles convert to 252 cents, not 253. `RubExact` says
  exactly which amounts come out short.
- Validation bounds no amount: a valid order can have a negative total, by wrapping
  (`ValidTotalCanBeNegative`) or by a conversion that saturates (`ConversionCanSaturate`).
  `NoOverflowIff` says exactly which validated orders are free of both.
- The documented state machines forbid leaving PAID or CANCELLED. Two interleaved requests can
  take an order from PAID to CANCELLED (`InterleavedRequestsDiverge`). `StateMachineIff` says exactly
  which runs keep the state machine, and with it the guard the transaction would need.

## Model

| member | source | states |
|---|---|---|
| Guarantees.OutboxConservation | order_service/internal/service/order.go:71-95 | in every reachable state, requests interleaved or not: one OrderCreated row per order, carrying it; the order's status is the type of its last row; SENT rows are in their topic's log; every message is a row's, field by field: its topic, the order id as key, the two headers, the payload, and carries the row's event |
| Steps.LogsAreSends | order_service/internal/outbox/relay.go:79 | in every run each log is exactly the sequence of the publications to its partition that were not lost, one message for each |
| Guarantees.OrdersAndRowsEndure | order_service/internal/service/order.go:156-158 | along every run orders change nothing but their status, rows are never lost, never change their event and never fall back from SENT, logs only grow |
| Guarantees.CreationQueuedFirst | order_service/internal/service/order.go:71-95 | in every reachable state an order's OrderCreated row precedes its other rows in the order of commits, among all rows and among the PENDING ones |
| Guarantees.RowsAreStamped | order_service/internal/service/order.go:79-88 | in every run the rows of the outbox are, in order, for the orders and with the clock readings of the transactions that wrote them |
| Guarantees.RisingTimes | order_service/internal/service/order.go:87 | so with a clock that moves on between transactions the outbox is in order of creation time |
| Guarantees.CreationPublishedFirst | order_service/internal/outbox/relay.go:57-89 | from every reachable state, what any number of good cycles appends to the logs begins, for each order, with its OrderCreated, as long as the clock moves on between the transactions of that order; the times of different orders do not matter |
| Guarantees.OffsetCommitSafety | billing_service/internal/kafka/consumer/consumer.go:86-137 | in every reachable state each offset below a committed one had its handler succeed, was skipped after a recorded success of the same key, or had a DLQ send attempted; failed saves that a later commit passed over included |
| Guarantees.CommitsAdvance | billing_service/internal/kafka/consumer/consumer.go:42-70 | no step moves a committed offset back |
| Guarantees.InvoicesComeFromOrders | billing_service/internal/service/billing.go:33-127 | in every run, interleaved or not, an invoice carries its order's total and creation time, and its status only what a committed event of that order says |
| Guarantees.OrdersArePriced | order_service/internal/service/order.go:97-113 | in every reachable state every order has valid items and exactly their computed total, in USD |
| Guarantees.OneTerminalIffFresh | order_service/internal/service/order.go:143-190 | at most one terminal event per order is ever written if and only if every terminal transaction committed over a CREATED order |
| Guarantees.StateMachineIff | order_service/internal/service/order.go:89-94 | no order is both paid and cancelled if and only if every terminal transaction meets an order that is CREATED or already has its target status, if and only if no order ever leaves PAID or CANCELLED |
| Guarantees.SerialIsFresh | order_service/internal/service/order.go:143-190 | serving the requests for each order one at a time is enough for that |
| Guarantees.EndToEndSafety | billing_service/internal/service/billing.go:33-127 | over every run that never pays and cancels the same order, with crashes, republication, redelivery, cross-topic reordering and interleaved Get/UpdateStatus: amount equals the order total, PAID only if the order is PAID, paid_at set exactly on PAID invoices, to that of an OrderPaid row of the order (the only one, if there is only one terminal row), CANCELLED only if the order is CANCELLED |
| Guarantees.InvoiceLifeCycle | billing_service/internal/repository/billing_repo.go:49-63 | with one terminal event per order every step moves an invoice along absent, PENDING, one terminal state, although the update has no status guard |
| Guarantees.HarmlessDeadLetters | billing_service/internal/kafka/consumer/consumer.go:101-127 | no relayed message is refused; an invalid-state letter is an OrderPaid whose invoice is already PAID, never an OrderCancelled |
| Guarantees.MirroredIffHandled | billing_service/internal/kafka/consumer/consumer.go:101-137 | in every reachable state, quiescent or not, an order has an invoice of its total and the image of its status if and only if some delivery of its last event was handled to success, or wrote the invoice although the database reported an error |
| Guarantees.LostIff | billing_service/internal/kafka/consumer/consumer.go:105-127 | with no row PENDING and every log committed to its end, an order is not so mirrored if and only if no write of its last event went unheard and every delivery of it was dead-lettered, for a reason other than an invalid state, and never handled to success |
| Meeting.LostIffNeverMet | billing_service/internal/service/billing.go:66-75 | at that point, if no handler call failed of itself, the order is not mirrored if and only if its last event is a payment or cancellation every read of which came before the order had an invoice; crashes, lost commits and lost dedup records included |
| Guarantees.Convergence | billing_service/internal/kafka/consumer/consumer.go:72-146 | at that point one delivery of the last event that was not so dead-lettered, or was handled after all, is enough for the order to be mirrored |
| Guarantees.StatsConverge | billing_service/internal/repository/invoice_read.go:61-102 | if every order has one such delivery, invoices and orders agree state by state and the reported revenue is the sum of the totals of the PAID orders |
| Guarantees.RevenueIsPayments | billing_service/internal/repository/invoice_read.go:70-78 | in every reachable state, quiescent or not, the revenue is the sum of the totals of exactly the orders a payment of which was handled to success, or written although the database reported an error |
| Guarantees.RevenueSteps | billing_service/internal/service/billing.go:63-91 | each step leaves the revenue alone or adds the total of one order newly recorded as PAID |
| Guarantees.RevenueNeverFalls | billing_service/internal/service/billing.go:63-127 | so the revenue does not fall along such a run, if no total is negative |
| Interleaving.InterleavedRequestsDiverge | order_service/internal/service/order.go:147-181 | for every new order there is a run with two interleaved requests that ends quiescent, with no dead letter but for an invalid state, and leaves the order CANCELLED with a PAID invoice |
| Overtaking.LostPayment | billing_service/internal/service/billing.go:66-70 | for every new order there is a run without interleaved requests or failing calls that ends quiescent with the order PAID, its invoice PENDING, and the payment dead-lettered as not found |
| Gauging.GaugesFollow | billing_service/internal/service/billing.go:50-123 | over every run that never pays and cancels the same order, crashes and interleaved handlers included, each gauge equals the invoices in its state now less those at process start, as long as no write that reports an error took effect |
| Billing.HandleOutcome | billing_service/internal/service/billing.go:33-127 | the handlers outcome by outcome: each error exactly in its case, and the row written field by field, whatever was read, acknowledged or lost |
| Billing.EffectOnce | billing_service/internal/service/billing.go:33-127 | over any sequence of atomic handler calls, whatever fails, one order's invoice states are a prefix of absent, PENDING, one terminal state, frozen once terminal |
| Billing.DedupRefines | billing_service/internal/kafka/consumer/consumer.go:86-96 | for any deliveries and any failures of handlers, checks and saves, the invoice table with the Exists check equals the table when Exists always answers false, from any ledger whose keys stand for effects |
| Billing.DedupIsTransparent | billing_service/internal/kafka/consumer/consumer.go:86-96 | the same from empty tables |
| Billing.KeepFirstIsWrong | billing_service/internal/kafka/consumer/consumer.go:130-133 | dropping every repetition of a key is not equivalent: Paid, Created, Paid ends PAID with the check and PENDING without repetitions |
| Billing.EffectedFacts | billing_service/internal/service/billing.go:36-40 | a handler that returns nil has left its event's effect, later calls of any event keep it, and repeating the event changes nothing |
| Billing.AttemptFacts | billing_service/internal/kafka/consumer/consumer.go:101-103 | the same for a message's whole sequence of attempts |
| Billing.KeyDecides | billing_service/internal/kafka/consumer/consumer.go:78-79 | whether an event is in effect is determined by its dedup key |
| DedupKey.ExtractHeader | billing_service/internal/kafka/consumer/consumer.go:148-155 | the value of the first header with the key, empty if there is none |
| DedupKey.EventKeyInjective | order_service/internal/domain/events/event.go:11-15 | eventType-orderID identifies event type and order |
| DedupKey.FallbackKeyInjective | billing_service/internal/kafka/consumer/consumer.go:82 | topic-partition-offset identifies the slot for any topic string, dashes included |
| DedupKey.KeyOutcome | billing_service/internal/kafka/consumer/consumer.go:75-84 | a message that lacks either header is keyed topic-partition-offset, any other eventType-orderID |
| DedupKey.RelayKeyText | order_service/internal/domain/events/event.go:11-15 | the key of a relayed message, letter by letter |
| DedupKey.RelayKey | order_service/internal/outbox/relay.go:69-77 | a message built by the relay always gets its row's event key, wherever it lands |
| Dispatch.DecodeOutcome | billing_service/internal/kafka/handler/handlers.go:34-91 | exactly which messages are skipped and which refused, and the zero values of the fields a payload lacks |
| Dispatch.DecodeEncode | billing_service/internal/kafka/handler/handlers.go:34-91 | decoding on an event's own topic inverts encoding; only an empty order id is refused |
| Outbox.FetchIsFetch | order_service/internal/outbox/outbox_repo.go:21-25 | the stable sort by creation time, cut at the limit, is an answer of the query: as many oldest PENDING rows as the limit allows, in order, none twice |
| Ordering.OrderDb.FetchPending | order_service/internal/outbox/outbox_repo.go:21-25 | the batch is an answer of that query, or the query fails and the batch is empty |
| Ordering.OrderDb.MarkSent | order_service/internal/outbox/outbox_repo.go:27-29 | exactly the row with the id becomes SENT |
| Ordering.OrderDb.Transaction | order_service/internal/service/order.go:89-94 | order and outbox row are written together or not at all |
| Ordering.OrderService.WriteWithOutbox | order_service/internal/service/order.go:71-95 | an unconfigured event type writes nothing; otherwise the order and one PENDING row are written atomically, the row with its id, order id, type, topic, payload and the time of the call |
| Ordering.OrderService.CreateOrder | order_service/internal/service/order.go:97-130 | succeeds exactly for valid items with a configured topic and an acknowledged transaction; stores the priced order and its OrderCreated row; every error is classified; the call is a run of the protocol |
| Ordering.OrderService.GetOrder | order_service/internal/service/order.go:132-141 | empty id, failed or empty read, or the stored order |
| Ordering.OrderService.MarkOrderPaid | order_service/internal/service/order.go:143-165 | succeeds exactly on a CREATED order; each error exactly in its case; the new tables; a run of the protocol |
| Ordering.OrderService.CancelOrder | order_service/internal/service/order.go:167-190 | the same for cancellation, idempotent on a CANCELLED order, refused on a PAID one |
| Ordering.RequestTrace | order_service/internal/service/order.go:147-163 | a request is a read step and a transaction step of the protocol |
| Relaying.Broker.WriteMessages | order_service/internal/outbox/relay.go:79-82 | a write that is not lost adds one message at the end of its partition's log and leaves every other log alone; an error may hide one |
| Relaying.Relay.constructor | order_service/internal/outbox/relay.go:20-34 | a batch size that is not positive becomes 50 |
| Relaying.Relay.ProcessOnce | order_service/internal/outbox/relay.go:57-89 | each fetched row is attempted exactly once and in order, a failed row does not hold up later ones, exactly the rows published and marked become SENT, and the cycle is a run of the protocol |
| Relaying.Relay.Start | order_service/internal/outbox/relay.go:36-55 | over any number of ticks a run of the protocol, with the logs exactly those that the attempted batches leave; while every cycle succeeds each sends min(batchSize, pending) rows, sent and waiting rows together being the queue, and none sent is younger than one waiting |
| Relaying.CeilingEmpties | order_service/internal/outbox/relay.go:57-89 | ceil(n / batchSize) successful cycles empty a queue of n rows: each row is in the batches exactly once and no other row is, by age, and in queue order when creation times increase |
| Relaying.CyclesPost | order_service/internal/outbox/relay.go:68-87 | through successful cycles there is one posting for each row of the batches, in order and to a partition of its topic, and every log grows by exactly the messages of the postings to it |
| Relaying.CycleTakes | order_service/internal/outbox/relay.go:57-89 | a good cycle takes exactly the batch off the queue, min(limit, pending) rows, in order of age and none younger than a row left; with increasing creation times the front |
| Relaying.StillPending | order_service/internal/outbox/relay.go:68-87 | after any cycle a fetched row is PENDING exactly if its own publication or marking failed, and no other row changes |
| BillingDesk.BillingDb.Create | billing_service/internal/repository/billing_repo.go:28-34 | inserts the invoice, and refuses a second one for an order as the unique index on the order id does |
| BillingDesk.BillingDb.Get | billing_service/internal/repository/billing_repo.go:36-46 | the order's invoice, or nothing if there is none or the read fails |
| BillingDesk.BillingDb.UpdateStatus | billing_service/internal/repository/billing_repo.go:48-63 | whatever the current status, sets status, and paid_at only if given; fails when no row matches |
| BillingDesk.BillingDb.Exists | billing_service/internal/repository/processed_event.go:25-36 | yes only for a recorded key on a successful read |
| BillingDesk.BillingDb.Save | billing_service/internal/repository/processed_event.go:38-45 | adds the key, and fails without effect if it is already there |
| BillingDesk.BillingService.HandleOrderCreated | billing_service/internal/service/billing.go:33-61 | table and error are those Billing.HandleOutcome spells out; the pending gauge goes up by one for a new invoice; gauges move exactly with the table's counts on success and not at all on error |
| BillingDesk.BillingService.HandleOrderPaid | billing_service/internal/service/billing.go:63-91 | the same for payments, which move one from pending to paid |
| BillingDesk.BillingService.HandleOrderCancelled | billing_service/internal/service/billing.go:93-127 | the same for cancellations, which move one from pending to cancelled unless the invoice is CANCELLED already |
| BillingDesk.BillingService.HandleEvent | billing_service/internal/service/billing.go:50-123 | the gauges stay in step with the table if and only if the call succeeded or left the table alone |
| BillingDesk.BillingService.HandleAll | billing_service/internal/service/billing.go:50-123 | over any sequence of calls without hidden writes each gauge equals its count now less its count at the start |
| BillingDesk.HonestWrites | billing_service/internal/service/billing.go:50-123 | there are no hidden writes when a database call that returns an error had no effect |
| BillingDesk.HistoryRevenue | billing_service/internal/service/billing.go:63-127 | over any sequence of atomic handler calls the revenue never falls, if no amount is negative |
| BillingDesk.AggregatePaid | billing_service/internal/repository/invoice_read.go:70-78 | count and sum over exactly the PAID rows |
| BillingDesk.InvoiceReadRepository.GetStats | billing_service/internal/repository/invoice_read.go:61-102 | all four counts and the revenue of one snapshot, total equal to paid plus pending plus cancelled, or nothing if any query fails |
| Stats.CountsPartition | billing_service/internal/repository/invoice_read.go:80-97 | every invoice is in exactly one of the three counts |
| Stats.CountWrite | billing_service/internal/repository/billing_repo.go:53 | writing one row changes each count by that row's own contribution |
| Stats.RevenueWrite | billing_service/internal/repository/invoice_read.go:70-78 | a write that does not touch a terminal row adds its amount exactly if it makes the row PAID |
| Stats.SumPick | billing_service/internal/repository/invoice_read.go:71 | the sum over a table does not depend on the order of its rows |
| Consuming.DlqProducer.Send | billing_service/internal/kafka/reliability/dlq_producer.go:34-45 | every send is attempted and its error dropped |
| Consuming.Offsets.FetchMessage | billing_service/internal/kafka/consumer/consumer.go:55-66 | the message at the partition's position, which moves past it; an error moves nothing |
| Consuming.Offsets.CommitMessages | billing_service/internal/kafka/consumer/consumer.go:92 | commits the offset after the message |
| Consuming.OrderHandler.Handle | billing_service/internal/kafka/handler/handlers.go:34-103 | unknown topics skipped, malformed payloads and empty order ids dead-lettered and reported as handled, everything else handed to the billing service |
| Consuming.OrderHandler.SafeHandle | shared/middleware/kafka_recovery.go:13-23 | a panic becomes an error |
| Consuming.Consumer.HandleWithRetry | billing_service/internal/kafka/consumer/consumer.go:101-103 | handled if any of three calls succeeds before a cancellation; given up for an error of its own only after all three failed, each on the table the one before it left |
| Consuming.ThreeCalls | billing_service/internal/kafka/consumer/consumer.go:101-103 | three calls and no more: the outcome of the attempts spelled out on the calls |
| Steps.ThirdAttemptIsLast | billing_service/internal/kafka/reliability/retry.go:11-26 | in the protocol a failed first or second attempt is followed by another unless cancelled, a failed third by giving up |
| Steps.PanicAnywhere | shared/middleware/kafka_recovery.go:13-23 | in the protocol a handler may panic before its read and before its write, and the attempt has then failed without effect |
| Steps.RefusedIsBuried | billing_service/internal/kafka/handler/handlers.go:34-103 | in the protocol a refused payload is dead-lettered at once and counts as handled, an unknown topic only skipped |
| Steps.BillingCrash | billing_service/internal/kafka/consumer/consumer.go:42-70 | a crash is possible in any state; it drops what is in hand and rewinds to the committed offsets, and touches nothing durable |
| Steps.OrderCrash | order_service/internal/outbox/relay.go:36-55 | the same for the order service |
| Consuming.Consumer.Conclude | billing_service/internal/kafka/consumer/consumer.go:107-140 | failure: counted, dead-lettered, committed; success: saved, and only then committed and counted |
| Consuming.Consumer.ProcessMessage | billing_service/internal/kafka/consumer/consumer.go:72-146 | tables, offsets, letters and counters after one message |
| Consuming.Consumer.Round | billing_service/internal/kafka/consumer/consumer.go:46-69 | one turn of the loop is a run of the protocol |
| Consuming.Consumer.Start | billing_service/internal/kafka/consumer/consumer.go:42-70 | the fetch loop over any number of turns is a run of the protocol |
| Consuming.MessageTrace | billing_service/internal/kafka/consumer/consumer.go:72-146 | processing a fetched message is a run: check, attempts as Get, Put or panic steps, then dead letter or save, then commit |
| Consuming.ProcessedDelivers | billing_service/internal/kafka/consumer/consumer.go:86-133 | on invoices and processed events, processing is the delivery of the dedup theorem |
| Consuming.CommitNeedsRecord | billing_service/internal/kafka/consumer/consumer.go:88-140 | the offset moves exactly if the message was skipped, failed for good, or succeeded and was newly recorded, and only with the trace of that already left |
| Consuming.TriesFollowRetry | billing_service/internal/kafka/consumer/consumer.go:101-103 | the consumer's attempts end exactly as reliability.Retry with three attempts does for the same errors |
| Retry.Retry | billing_service/internal/kafka/reliability/retry.go:9-27 | between one and attempts calls, stopping at the first success; nil exactly when the last call returned nil; the chosen delays |
| Retry.BackoffFits | billing_service/internal/kafka/reliability/retry.go:17-18 | no wait wraps int64 nanoseconds or panics, for any jitter, if and only if there are at most 34 attempts |
| Retry.TotalBackoff | billing_service/internal/kafka/reliability/retry.go:17-22 | n waits take at least 2^n - 1 seconds and less than 1.2 times that |
| Currency.RatesAreNearest | shared/currency/converter.go:12-16 | the two significands are the binary64 values nearest to 1.09 and 0.011 (section 4.3.1 of IEEE 754-2019) |
| Currency.EurExact | shared/currency/converter.go:24-34 | EUR amounts up to 2^45 convert to exactly floor(109a/100) |
| Currency.SignCarries | shared/currency/converter.go:32 | an amount and its negative convert to opposite values, short of overflow |
| Currency.RubExact | shared/currency/converter.go:24-34 | RUB amounts up to 2^45 convert to floor(11a/1000), except one less for exactly those multiples 1000k with 23k above four times the largest power of two in 11k |
| Currency.RubOnGrid | shared/currency/converter.go:24-34 | a multiple 1000k converts to 11k, or to 11k - 1 exactly when 23k exceeds four times the largest power of two in 11k |
| Currency.RubWithinCent | shared/currency/converter.go:24-34 | RUB amounts up to 2^45 convert to no more than 11a/1000 and no more than one cent below it |
| Currency.RubCounterexample | shared/currency/converter.go:32 | 23000 gives 252 where the exact floor is 253 |
| Currency.UlpBounds | shared/currency/converter.go:32 | the rounding unit is the power of two that leaves a 53-bit significand |
| Currency.TiesToEven | shared/currency/converter.go:32 | half way between two multiples of the unit the even one is taken (section 4.3.1 of IEEE 754-2019) |
| Currency.RoundToBounds | shared/currency/converter.go:32 | rounding errs by at most half a unit and crosses no multiple of it |
| Pricing.ValidateItems | order_service/internal/service/order.go:48-69 | accepts exactly the non-empty lists whose items have a product id, a positive quantity and price, and are in USD, EUR or RUB; otherwise names the first defective item and its first defect |
| Pricing.CurrenciesAgree | order_service/internal/service/order.go:42-46 | the validator's currencies are exactly those the converter converts: USD, EUR and RUB |
| Pricing.CalcTotalUSD | order_service/internal/service/currency.go:12-25 | the running int64 sum equals the wrapped mathematical sum of the converted lines; an input error, and no other, exactly if some currency is none of USD, EUR and RUB |
| Pricing.ValidItemsConvert | order_service/internal/service/order.go:42-46 | validated items always convert |
| Pricing.TotalPermutes | order_service/internal/service/currency.go:12-25 | the total, error and wrap-around included, does not depend on the order of the items |
| Pricing.TotalError | order_service/internal/service/currency.go:12-25 | for at most 2^17 valid lines of at most 2^45: nothing wraps, and exact - k <= total <= exact with k the number of non-USD lines |
| Pricing.NoOverflowIff | order_service/internal/service/currency.go:12-25 | for every validated order, mixed currencies included: no line product wraps, no conversion saturates and no running total wraps if and only if every line fits an int64 before and after its conversion and so does their sum |
| Pricing.UsdOnlyTotal | order_service/internal/service/currency.go:12-25 | a USD-only total is exact if and only if the exact sum is an int64 |
| Pricing.ValidTotalCanBeNegative | order_service/internal/service/order.go:48-69 | a validated order whose total is the least int64 |
| Pricing.ConversionCanSaturate | shared/currency/converter.go:32 | a validated order of 2^63 - 1 euro cents whose conversion saturates to the least int64 |
| MoneyCodec.MoneyColumn.Scan | shared/money/money.go:20-44 | sets both fields exactly on a well-formed value and changes nothing on an error |
| MoneyCodec.RoundTrip | shared/money/money.go:16-44 | Scan inverts Value if and only if the currency has no bar, for every int64 amount; with a bar it rejects the format |
| MoneyCodec.CanonicalForm | shared/money/money.go:20-44 | an accepted string re-prints to one that scans to the same Money |
| MoneyCodec.ValueText | shared/money/money.go:16-18 | what stands before the first bar of the text is the amount in decimal digits, after an optional minus; what stands after it is the currency |
| MoneyCodec.ValueInjective | shared/money/money.go:16-18 | distinct amounts of bar-free currencies print differently |
| MoneyCodec.SplitAtBar | shared/money/money.go:31 | splitting at the first bar |
| Decimal.ParsePrint | shared/money/money.go:36 | parsing a printed integer succeeds with that integer if and only if it is an int64 |
| Decimal.DigitsRoundTrip | shared/money/money.go:17 | decimal digits determine their number |
| Decimal.DigitsAreDecimal | shared/money/money.go:17 | the last digit is n modulo 10 and what stands before it n / 10 |
| OrderSide.OrderInvHolds | order_service/internal/service/order.go:71-190 | the order-side invariant holds in every reachable state |
| Delivery.DeliveryInvHolds | billing_service/internal/kafka/consumer/consumer.go:42-146 | commits never outrun fetches, and everything fetched is settled or in hand, in every reachable state |
| Invoicing.AgreedHolds | billing_service/internal/service/billing.go:33-127 | in every run that never pays and cancels the same order, a slot whose handler succeeded shows its effect for good, and invalid-state failures are payments already made |
| Invoicing.WriteKeepsEffects | billing_service/internal/repository/billing_repo.go:53 | with no order both paid and cancelled, an unguarded late write undoes no effect |
| Invoicing.WriteAdvances | billing_service/internal/repository/billing_repo.go:53 | with one terminal event per order it moves its invoice one step along its life cycle, even when the status read before it is stale |

## Left out

- Liveness and timing: nothing is claimed to happen eventually.
- Consumer group rebalances: a partition is read by one consumer until that service crashes.
- Consuming.Consumer.Start: logs do not grow and no other consumer runs during one call; interleaving
  of the three consumers is modelled in Protocol, at the granularity of single database calls.
- Ordering.OrderService.MarkOrderPaid: no other request runs between its read and its transaction;
  that interleaving is modelled in Protocol.
- Consuming.Consumer.HandleWithRetry: the waits and their jitter are in Retry, not in this loop.
- Consuming.OrderHandler.SafeHandle: a panic comes before the handler's database calls; one after
  a write appears in Protocol as a write whose acknowledgement was lost.
- Kafka and PostgreSQL internals, GORM, connection handling and startup.
- gRPC servers, mappers, interceptors, configuration, logging, and metrics other than the
  invoice and consumer counters and the state gauges.
- ListInvoices: paging and limit clamping would add only easy members, and the order of ties is open.
- Overflow of the revenue sum: PostgreSQL sums bigint as numeric; scanning a larger sum is not modelled.
- The columns processed_at, and topic and time of a processed event: nothing reads them.
- Time stamps are opaque integers; increasing creation times are a premise where they are used.

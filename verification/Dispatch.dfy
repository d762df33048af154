/** billing_service/internal/kafka/handler/handlers.go: from a topic and a payload to a billing event. */
module Dispatch {
  import opened Domain

  /** The zero time.Time in Unix seconds: what a payload without created_at decodes to. */
  const ZERO_TIME: int := -62135596800

  /** A refused payload is sent to the DLQ and reported as handled; an unknown topic is skipped. */
  datatype Decoded = Parsed(event: Event) | Refused | UnknownTopic

  function Decode(topic: Topic, payload: Payload): Decoded {
    if topic.OtherTopic? then UnknownTopic
    else if payload.Malformed? || Or(payload.orderId, "") == "" then Refused
    else
      var o := payload.orderId.value;
      match topic
      case PaidTopic => Parsed(PaidEvent(o, Or(payload.paidAt, 0)))
      case CancelledTopic => Parsed(CancelledEvent(o, Or(payload.cancelledAt, 0)))
      case _ =>
        Parsed(CreatedEvent(o, Or(payload.total, Money(0, "")), Or(payload.items, []),
                            Or(payload.createdAt, ZERO_TIME)))
  }

  /** What is skipped, what is refused, and the zero values of the fields a payload lacks. */
  lemma DecodeOutcome(topic: Topic, payload: Payload)
    ensures Decode(topic, payload).UnknownTopic? <==> topic !in {CreatedTopic, PaidTopic, CancelledTopic}
    ensures Decode(topic, payload).Refused? <==>
              topic in {CreatedTopic, PaidTopic, CancelledTopic}
              && (payload.Malformed? || payload.orderId.None? || payload.orderId.value == "")
    ensures Decode(topic, payload).Parsed? ==>
              var o := payload.orderId.value;
              match Decode(topic, payload).event
              case CreatedEvent(id, total, items, createdAt) =>
                && topic == CreatedTopic && id == o && (payload.total.None? ==> total == Money(0, ""))
                && (payload.items.None? ==> items == []) && (payload.createdAt.None? ==> createdAt == -62135596800)
              case PaidEvent(id, paidAt) =>
                topic == PaidTopic && id == o && (payload.paidAt.None? ==> paidAt == 0)
              case CancelledEvent(id, cancelledAt) =>
                topic == CancelledTopic && id == o && (payload.cancelledAt.None? ==> cancelledAt == 0)
  {
  }

  /** Decoding on the event's own topic inverts encoding; only an empty order id is refused. */
  lemma DecodeEncode(e: Event)
    ensures Decode(TopicFor(e.Type()), Encode(e)) == if e.orderId == "" then Refused else Parsed(e)
  {
  }
}

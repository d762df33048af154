/** billing_service/internal/kafka/consumer/consumer.go: the idempotency key of a message. */
module DedupKey {
  import opened Domain
  import opened Decimal

  /** The first header with the key, or the empty string. */
  function FindHeader(headers: seq<Header>, key: string): string {
    if headers == [] then ""
    else if headers[0].key == key then headers[0].value
    else FindHeader(headers[1..], key)
  }

  method ExtractHeader(headers: seq<Header>, key: string) returns (value: string)
    ensures value == FindHeader(headers, key)
    ensures (exists i :: 0 <= i < |headers| && headers[i].key == key &&
              (forall j :: 0 <= j < i ==> headers[j].key != key) && value == headers[i].value)
            || ((forall i :: 0 <= i < |headers| ==> headers[i].key != key) && value == "")
  {
    for n := 0 to |headers|
      invariant forall j :: 0 <= j < n ==> headers[j].key != key
      invariant FindHeader(headers, key) == FindHeader(headers[n..], key)
    {
      if headers[n].key == key {
        return headers[n].value;
      }
    }
    return "";
  }

  function EventKey(eventType: string, orderId: string): string {
    eventType + "-" + orderId
  }

  function FallbackKey(topic: string, partition: nat, offset: nat): string {
    topic + "-" + Digits(partition) + "-" + Digits(offset)
  }

  /** The key of the message at an offset of a partition. */
  function KeyOf(m: Message, partition: nat, offset: nat): string {
    var orderId, eventType := FindHeader(m.headers, "order-id"), FindHeader(m.headers, "event-type");
    if orderId != "" && eventType != "" then EventKey(eventType, orderId)
    else FallbackKey(m.topic.Name(), partition, offset)
  }

  /** Cutting two equal strings at the first dash gives equal halves. */
  lemma {:induction false} CutAtFirstDash(a: string, b: string, c: string, d: string)
    requires '-' !in a && '-' !in c && a + "-" + b == c + "-" + d
    ensures a == c && b == d
  {
    var s := a + "-" + b;
    assert s[|a|] == '-' && s[|c|] == '-';
    assert forall i :: 0 <= i < |a| ==> s[i] == a[i] && s[i] != '-';
    assert forall i :: 0 <= i < |c| ==> s[i] == c[i] && s[i] != '-';
    assert a == s[..|a|] && c == s[..|c|];
    assert b == s[|a| + 1..] && d == s[|c| + 1..];
  }

  /** The same at the last dash, for tails that hold none. */
  lemma {:induction false} CutAtLastDash(a: string, b: string, c: string, d: string)
    requires '-' !in b && '-' !in d && a + "-" + b == c + "-" + d
    ensures a == c && b == d
  {
    var s := a + "-" + b;
    assert s[|a|] == '-' && s[|c|] == '-';
    assert forall i :: |a| < i < |s| ==> s[i] == b[i - |a| - 1] && s[i] != '-';
    assert forall i :: |c| < i < |s| ==> s[i] == d[i - |c| - 1] && s[i] != '-';
    assert a == s[..|a|] && c == s[..|c|];
    assert b == s[|a| + 1..] && d == s[|c| + 1..];
  }

  /** Distinct events never share a key. */
  lemma EventKeyInjective(e: EventType, o: OrderId, e': EventType, o': OrderId)
    requires EventKey(e.Name(), o) == EventKey(e'.Name(), o')
    ensures e == e' && o == o'
  {
    CutAtFirstDash(e.Name(), o, e'.Name(), o');
    assert e.Name()[5] == e'.Name()[5];
  }

  /** Offset-based keys identify the slot, whatever dashes the topic name holds. */
  lemma FallbackKeyInjective(t: string, p: nat, n: nat, t': string, p': nat, n': nat)
    requires FallbackKey(t, p, n) == FallbackKey(t', p', n')
    ensures t == t' && p == p' && n == n'
  {
    CutAtLastDash(t + "-" + Digits(p), Digits(n), t' + "-" + Digits(p'), Digits(n'));
    CutAtLastDash(t, Digits(p), t', Digits(p'));
    DigitsRoundTrip(p);
    DigitsRoundTrip(p');
    DigitsRoundTrip(n);
    DigitsRoundTrip(n');
  }

  /** A message that lacks either header is keyed by its place, any other by its two headers. */
  lemma KeyOutcome(m: Message, partition: nat, offset: nat)
    ensures
      var orderId, eventType := FindHeader(m.headers, "order-id"), FindHeader(m.headers, "event-type");
      KeyOf(m, partition, offset)
      == if orderId == "" || eventType == ""
         then m.topic.Name() + "-" + Digits(partition) + "-" + Digits(offset)
         else eventType + "-" + orderId
  {
  }

  /** The three configured topics have different names. */
  lemma TopicNamesDiffer(t: Topic, u: Topic)
    requires !t.OtherTopic? && !u.OtherTopic? && t.Name() == u.Name()
    ensures t == u
  {
    assert t.Name()[6] == u.Name()[6];
    assert CreatedTopic.Name()[6] == 'c' && PaidTopic.Name()[6] == 'p';
    assert CancelledTopic.Name()[7] == 'a' && CreatedTopic.Name()[7] == 'r';
  }

  /** The key of a relayed message, letter by letter. */
  lemma RelayKeyText(row: OutboxRow, partition: nat, offset: nat)
    requires row.orderId != ""
    ensures KeyOf(MessageOf(row), partition, offset)
            == match row.eventType
               case OrderCreated => "OrderCreated-" + row.orderId
               case OrderPaid => "OrderPaid-" + row.orderId
               case OrderCancelled => "OrderCancelled-" + row.orderId
  {
    RelayKey(row, partition, offset);
    assert "OrderCreated" + "-" == "OrderCreated-";
    assert "OrderPaid" + "-" == "OrderPaid-";
    assert "OrderCancelled" + "-" == "OrderCancelled-";
  }

  /** A message built by the relay is keyed by its row's event type and order, wherever it lands. */
  lemma RelayKey(row: OutboxRow, partition: nat, offset: nat)
    requires row.orderId != ""
    ensures KeyOf(MessageOf(row), partition, offset) == EventKey(row.eventType.Name(), row.orderId)
  {
    var h := MessageOf(row).headers;
    assert h[1..] == [Header("order-id", row.orderId)];
    assert h[0].key == "event-type" && h[1].key == "order-id";
    assert h[0].key[0] != h[1].key[0];
    assert FindHeader(h, "event-type") == row.eventType.Name();
    assert FindHeader(h, "order-id") == FindHeader(h[1..], "order-id") == row.orderId;
  }
}

/** Pieces of concrete runs: a relay that sends a whole batch, and a consumer that serves one message. */
module Scenarios {
  import opened Prelude
  import opened Domain
  import opened Dispatch
  import opened DedupKey
  import opened Outbox
  import opened Billing
  import opened Protocol
  import opened Ordering
  import opened Relaying
  import opened Consuming
  import opened Guarantees

  predicate NewOrder(order: Order) { order.id != "" && order.status == StatusCreated && Priced(order) }

  // ----- The relay sends a whole batch -----

  predicate AllPending(rows: seq<OutboxRow>) {
    forall i :: 0 <= i < |rows| ==> rows[i].status == RowPending
  }

  lemma {:induction false} PendingAll(rows: seq<OutboxRow>)
    requires AllPending(rows)
    ensures PendingRows(rows) == rows
  {
    if rows != [] {
      PendingAll(rows[..|rows| - 1]);
    }
  }

  function SentFirst(rows: seq<OutboxRow>, k: nat): seq<OutboxRow> {
    seq(|rows|, i requires 0 <= i < |rows| => if i < k then rows[i].(status := RowSent) else rows[i])
  }

  /** Each row is the first message of its topic. */
  function LogsAfter(rows: seq<OutboxRow>, k: nat): (logs: Logs)
    requires k <= |rows|
    ensures forall at :: at in logs ==> exists i :: 0 <= i < k && at == Partition(rows[i].topic, 0)
  {
    if k == 0 then map[] else LogsAfter(rows, k - 1)[Partition(rows[k - 1].topic, 0) := [MessageOf(rows[k - 1])]]
  }

  predicate DistinctTopics(rows: seq<OutboxRow>) {
    forall i, j :: 0 <= i < j < |rows| ==> rows[i].topic != rows[j].topic
  }

  function Sending(sales: Sales, rows: seq<OutboxRow>, k: nat): State
    requires k <= |rows|
  {
    State(sales.(outbox := SentFirst(rows, k), relay := RelayState(rows[k..], false)), LogsAfter(rows, k), INIT.office)
  }

  lemma SendNext(sales: Sales, rows: seq<OutboxRow>, k: nat) returns (acts: seq<Action>)
    requires k < |rows| && DistinctIds(rows) && DistinctTopics(rows)
    ensures Valid(Sending(sales, rows, k), acts) && Exec(Sending(sales, rows, k), acts) == Sending(sales, rows, k + 1)
  {
    acts := RowTrace(Sending(sales, rows, k), RowIo(0, Acked, Acked));
    assert rows[k..][1..] == rows[k + 1..];
    assert MarkSent(SentFirst(rows, k), rows[k].id) == SentFirst(rows, k + 1);
    var at, m := Partition(rows[k].topic, 0), MessageOf(rows[k]);
    assert at !in LogsAfter(rows, k) && [] + [m] == [m];
  }

  lemma {:induction false} SendFirst(sales: Sales, rows: seq<OutboxRow>, k: nat) returns (acts: seq<Action>)
    requires k <= |rows| && DistinctIds(rows) && DistinctTopics(rows)
    ensures Valid(Sending(sales, rows, 0), acts) && Exec(Sending(sales, rows, 0), acts) == Sending(sales, rows, k)
  {
    acts := [];
    if k > 0 {
      acts := SendFirst(sales, rows, k - 1);
      var more := SendNext(sales, rows, k - 1);
      ExecAppend(Sending(sales, rows, 0), acts, more);
      acts := acts + more;
    }
  }

  lemma {:induction false} LogsHold(rows: seq<OutboxRow>, n: nat, k: nat)
    requires k < n <= |rows| && DistinctTopics(rows)
    ensures Log(LogsAfter(rows, n), Partition(rows[k].topic, 0)) == [MessageOf(rows[k])]
  {
    if k < n - 1 {
      LogsHold(rows, n - 1, k);
    }
  }

  /** Rows that wait in order of creation, one for each topic. */
  predicate Batch(rows: seq<OutboxRow>) {
    AllPending(rows) && Sorted(rows) && DistinctIds(rows) && DistinctTopics(rows)
  }

  /** One cycle publishes and marks them all. */
  lemma RelayAll(sales: Sales, rows: seq<OutboxRow>) returns (acts: seq<Action>)
    requires sales.outbox == rows && sales.relay == RelayState([], false) && Batch(rows)
    ensures Valid(INIT.(sales := sales), acts) && Exec(INIT.(sales := sales), acts) == Sending(sales, rows, |rows|)
  {
    var s, fetch := INIT.(sales := sales), RelayFetch(|rows|, rows);
    PendingAll(rows);
    One(s, fetch);
    assert SentFirst(rows, 0) == rows && rows[0..] == rows;
    var more := SendFirst(sales, rows, |rows|);
    ExecAppend(s, [fetch], more);
    acts := [fetch] + more;
  }

  // ----- A consumer serves one message -----

  /** Every database and broker call succeeds. */
  function Fine(): MessageIo {
    MessageIo(true, (i: nat) => Io(true, false, Acked, "invoice"), (i: nat) => false, Acked, Acked, Acked)
  }

  /** What serving a message adds to the office. */
  ghost predicate Serves(b: Office, b': Office, slot: Slot, table: Invoices,
                         keys: set<string>, letters: seq<DeadLetter>)
  {
    && b'.invoices == table && b'.processed == b.processed + keys && b'.letters == b.letters + letters
    && b'.phases == b.phases[slot.at.topic := Idle] && b'.position == b.position[slot.at := slot.offset + 1]
    && b'.committed == b.committed[slot.at := slot.offset + 1]
  }

  /** The event is accepted at once. */
  lemma Accepted(b: Office, e: Event, slot: Slot)
    requires Handle(e, b.invoices, Fine().calls(0)).1 == None && Key(e) !in b.processed
    ensures Serves(b, Processed(Taken(b, slot), Parsed(e), Key(e), slot, Fine()), slot,
                   Handle(e, b.invoices, Fine().calls(0)).0, {Key(e)}, [])
  {
    EnterTwice(b, slot.at.topic, Fetched(slot), Succeeded(slot));
    EnterTwice(b, slot.at.topic, Succeeded(slot), Idle);
    assert Tries(Parsed(e), b.invoices, Fine(), 0) == Handle(e, b.invoices, Fine().calls(0));
  }

  /** The event is refused three times over. */
  lemma RefusedThrice(b: Office, e: Event, slot: Slot, error: ErrorCode)
    requires Handle(e, b.invoices, Fine().calls(0)) == (b.invoices, Some(error)) && Key(e) !in b.processed
    ensures Serves(b, Processed(Taken(b, slot), Parsed(e), Key(e), slot, Fine()), slot,
                   b.invoices, {}, [DeadLetter(slot, HandlerFailed(error))])
  {
    EnterTwice(b, slot.at.topic, Fetched(slot), Failed(slot, error));
    EnterTwice(b, slot.at.topic, Failed(slot, error), Idle);
    var failed := (b.invoices, Some(error));
    assert Tries(Parsed(e), b.invoices, Fine(), 2) == failed;
    assert Tries(Parsed(e), b.invoices, Fine(), 1) == failed;
    assert Tries(Parsed(e), b.invoices, Fine(), 0) == failed;
  }

  /** The slot holds the event's message. */
  ghost predicate Holds(logs: Logs, slot: Slot, e: Event) {
    InLog(logs, slot) && DecodedAt(logs, slot) == Parsed(e) && KeyAt(logs, slot) == Key(e)
  }

  lemma Serve(s: State, slot: Slot, e: Event) returns (acts: seq<Action>, next: Office)
    requires PhaseOf(s.office, slot.at.topic).Idle? && Position(s.office, slot.at) == slot.offset
    requires Holds(s.logs, slot, e) && Key(e) !in s.office.processed
    requires var (table, error) := Handle(e, s.office.invoices, Fine().calls(0));
             error == None || table == s.office.invoices
    ensures Valid(s, acts) && Exec(s, acts) == s.(office := next)
    ensures var (table, error) := Handle(e, s.office.invoices, Fine().calls(0));
            if error == None then Serves(s.office, next, slot, table, {Key(e)}, [])
            else Serves(s.office, next, slot, table, {}, [DeadLetter(slot, HandlerFailed(error.value))])
  {
    acts, next := RoundTrace(s, slot, MessageAt(s.logs, slot), Fine());
    var error := Handle(e, s.office.invoices, Fine().calls(0)).1;
    if error == None {
      Accepted(s.office, e, slot);
    } else {
      RefusedThrice(s.office, e, slot, error.value);
    }
  }

  lemma KeysDiffer(o: OrderId, a: Event, b: Event)
    requires a.orderId == b.orderId == o && a.Type() != b.Type()
    ensures Key(a) != Key(b)
  {
    if Key(a) == Key(b) {
      EventKeyInjective(a.Type(), o, b.Type(), o);
    }
  }

  /** The message of the k-th row, in its topic's log. */
  function SlotOf(rows: seq<OutboxRow>, k: nat): Slot
    requires k < |rows|
  {
    Slot(Partition(rows[k].topic, 0), 0)
  }

  lemma RowHeld(rows: seq<OutboxRow>, k: nat)
    requires k < |rows| && DistinctTopics(rows) && RowOk(rows[k])
    ensures Holds(LogsAfter(rows, |rows|), SlotOf(rows, k), EventIn(rows[k]))
    ensures |Log(LogsAfter(rows, |rows|), SlotOf(rows, k).at)| == 1
  {
    LogsHold(rows, |rows|, k);
    RelayKey(rows[k], 0, 0);
  }

  ghost predicate IsSlot(rows: seq<OutboxRow>, at: Partition) {
    exists k :: 0 <= k < |rows| && at == SlotOf(rows, k).at
  }

  lemma OneMessage(rows: seq<OutboxRow>, at: Partition)
    requires DistinctTopics(rows)
    ensures |Log(LogsAfter(rows, |rows|), at)| == if IsSlot(rows, at) then 1 else 0
  {
    if IsSlot(rows, at) {
      var k :| 0 <= k < |rows| && at == SlotOf(rows, k).at;
      LogsHold(rows, |rows|, k);
    } else {
      forall k | 0 <= k < |rows| ensures at != Partition(rows[k].topic, 0) {
        assert at != SlotOf(rows, k).at;
      }
    }
  }

  /** Every row is sent, and its message committed. */
  lemma AllServed(s: State, rows: seq<OutboxRow>)
    requires DistinctTopics(rows) && s.sales.outbox == SentFirst(rows, |rows|) && s.logs == LogsAfter(rows, |rows|)
    requires forall at :: Committed(s.office, at) == if IsSlot(rows, at) then 1 else 0
    ensures Quiescent(s)
  {
    AllCommitted(s.office, rows);
  }

  lemma AllCommitted(b: Office, rows: seq<OutboxRow>)
    requires DistinctTopics(rows) && forall at :: Committed(b, at) == if IsSlot(rows, at) then 1 else 0
    ensures forall at :: Committed(b, at) == |Log(LogsAfter(rows, |rows|), at)|
  {
    forall at ensures Committed(b, at) == |Log(LogsAfter(rows, |rows|), at)| {
      OneMessage(rows, at);
    }
  }
}

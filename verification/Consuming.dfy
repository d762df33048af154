/** billing_service/internal/kafka: one consumer, its handler and its dead letters, as runs of the protocol. */
module Consuming {
  import opened Prelude
  import opened Domain
  import opened Dispatch
  import opened DedupKey
  import opened Billing
  import opened BillingDesk
  import opened Protocol
  import opened Ordering
  import opened Retry

  /** What one message meets from outside: the answers of the databases and the broker, attempt by attempt. */
  datatype MessageIo = MessageIo(checkOk: bool, calls: nat -> Io, cancelled: nat -> bool,
                                 dlq: Ack, save: Ack, commit: Ack)

  // ----- What processing one message amounts to -----

  /** One guarded call of the handler. A refused payload counts as handled. */
  function Call(d: Decoded, table: Invoices, io: Io): (Invoices, Option<ErrorCode>) {
    if io.panics then (table, Some(Panic))
    else if d.Parsed? then Handle(d.event, table, io)
    else (table, None)
  }

  /** The attempts from the i-th on: up to three in all, fewer on success or cancellation. */
  function Tries(d: Decoded, table: Invoices, io: MessageIo, i: nat): (Invoices, Option<ErrorCode>)
    requires i < MAX_ATTEMPTS
    decreases MAX_ATTEMPTS - i
  {
    var (after, error) := Call(d, table, io.calls(i));
    if error == None || i + 1 == MAX_ATTEMPTS then (after, error)
    else if io.cancelled(i) then (after, Some(Shutdown))
    else Tries(d, after, io, i + 1)
  }

  /** The office after attempts that ended with this table and error. */
  function Tried(b: Office, d: Decoded, slot: Slot, result: (Invoices, Option<ErrorCode>)): Office {
    var (table, error) := result;
    if error == None then
      Succeed(b, slot.at.topic, slot)
      .(invoices := table, letters := if d.Refused? then b.letters + [DeadLetter(slot, RefusedPayload)] else b.letters)
    else Enter(b, slot.at.topic, Failed(slot, error.value)).(invoices := table)
  }

  function CommitSlot(b: Office, slot: Slot, ack: Ack): Office {
    Enter(b, slot.at.topic, Idle)
    .(committed := if ack.Effective() then b.committed[slot.at := slot.offset + 1] else b.committed)
  }

  /** A failure is dead-lettered and committed over, a success saved and only then committed. */
  function Finished(b: Office, key: string, slot: Slot, error: Option<ErrorCode>, io: MessageIo): Office {
    if error.Some? then
      CommitSlot(b.(letters := b.letters + [DeadLetter(slot, HandlerFailed(error.value))]), slot, io.commit)
    else if key in b.processed then Enter(b, slot.at.topic, Idle)
    else
      var saved := b.(processed := if io.save.Effective() then b.processed + {key} else b.processed);
      if io.save.Acked? then CommitSlot(saved, slot, io.commit) else Enter(saved, slot.at.topic, Idle)
  }

  /** The office after a fetched message was processed. */
  function Processed(b: Office, d: Decoded, key: string, slot: Slot, io: MessageIo): Office {
    if io.checkOk && key in b.processed then CommitSlot(b.(skipped := b.skipped + {slot}), slot, io.commit)
    else
      var result := Tries(d, b.invoices, io, 0);
      Finished(Tried(b, d, slot, result), key, slot, result.1, io)
  }

  // ----- The same as a run of the protocol -----

  /** The office after one call of the handler. */
  function Called(b: Office, d: Decoded, slot: Slot, attempt: nat, io: Io, cancelled: bool): Office {
    var (table, error) := Call(d, b.invoices, io);
    if error == None then Tried(b, d, slot, (table, error))
    else Enter(b, slot.at.topic, AfterError(slot, attempt, error.value, cancelled)).(invoices := table)
  }

  lemma OfficeOne(s: State, a: Action, b: Office)
    requires !a.OfSales() && OfficeEnabled(s.office, s.logs, a) && OfficeEffect(s.office, s.logs, a) == b
    ensures Valid(s, [a]) && Exec(s, [a]) == s.(office := b)
  {
    One(s, a);
  }

  lemma OfficeTwo(s: State, a: Action, b: Office, a': Action, b': Office)
    requires !a.OfSales() && OfficeEnabled(s.office, s.logs, a) && OfficeEffect(s.office, s.logs, a) == b
    requires !a'.OfSales() && OfficeEnabled(b, s.logs, a') && OfficeEffect(b, s.logs, a') == b'
    ensures Valid(s, [a, a']) && Exec(s, [a, a']) == s.(office := b')
  {
    OfficeOne(s, a, b);
    Extend(s, [a], a');
    assert [a] + [a'] == [a, a'];
  }

  /** Only the last phase entered counts. */
  lemma EnterTwice(b: Office, t: Topic, p: Phase, q: Phase)
    ensures Enter(Enter(b, t, p), t, q) == Enter(b, t, q)
  {
    assert b.phases[t := p][t := q] == b.phases[t := q];
  }

  /** A call whose Get leads to a write. */
  lemma WriteTrace(s: State, e: Event, slot: Slot, attempt: nat, io: Io, cancelled: bool) returns (acts: seq<Action>)
    requires PhaseOf(s.office, slot.at.topic) == Handling(slot, attempt) && InLog(s.logs, slot)
    requires DecodedAt(s.logs, slot) == Parsed(e) && !io.panics
    requires Decide(e, Find(s.office.invoices, e.orderId, io.readOk)) == Proceed
    ensures Valid(s, acts) && Exec(s, acts) == s.(office := Called(s.office, Parsed(e), slot, attempt, io, cancelled))
  {
    var t, b := slot.at.topic, s.office;
    var get, put := Get(t, io.readOk, cancelled), Put(t, io.ack, io.invoiceId, cancelled);
    var writing := Enter(b, t, Writing(slot, attempt));
    var (table, error) := Write(e, io.invoiceId, b.invoices, io.ack);
    EnterTwice(b, t, Writing(slot, attempt),
               if error == None then Succeeded(slot) else AfterError(slot, attempt, error.value, cancelled));
    OfficeTwo(s, get, writing, put, AfterPut(writing, e, t, slot, attempt, io.ack, io.invoiceId, cancelled));
    acts := [get, put];
  }

  /** A call that ends at its Get, or in a panic. */
  lemma ReadTrace(s: State, slot: Slot, attempt: nat, io: Io, cancelled: bool) returns (acts: seq<Action>)
    requires PhaseOf(s.office, slot.at.topic) == Handling(slot, attempt) && InLog(s.logs, slot)
    requires var d := DecodedAt(s.logs, slot);
             d.Parsed? && !io.panics ==> Decide(d.event, Find(s.office.invoices, d.event.orderId, io.readOk)) != Proceed
    ensures Valid(s, acts)
    ensures Exec(s, acts) == s.(office := Called(s.office, DecodedAt(s.logs, slot), slot, attempt, io, cancelled))
  {
    var a := if io.panics then Fault(slot.at.topic, cancelled) else Get(slot.at.topic, io.readOk, cancelled);
    OfficeOne(s, a, Called(s.office, DecodedAt(s.logs, slot), slot, attempt, io, cancelled));
    acts := [a];
  }

  lemma CallTrace(s: State, slot: Slot, attempt: nat, io: Io, cancelled: bool) returns (acts: seq<Action>)
    requires PhaseOf(s.office, slot.at.topic) == Handling(slot, attempt) && InLog(s.logs, slot)
    ensures Valid(s, acts)
    ensures Exec(s, acts) == s.(office := Called(s.office, DecodedAt(s.logs, slot), slot, attempt, io, cancelled))
  {
    var d := DecodedAt(s.logs, slot);
    if d.Parsed? && !io.panics && Decide(d.event, Find(s.office.invoices, d.event.orderId, io.readOk)) == Proceed {
      acts := WriteTrace(s, d.event, slot, attempt, io, cancelled);
    } else {
      acts := ReadTrace(s, slot, attempt, io, cancelled);
    }
  }

  /** Another attempt after a failed one ends where the attempts end. */
  lemma TriesNext(b: Office, d: Decoded, slot: Slot, io: MessageIo, i: nat)
    requires i < MAX_ATTEMPTS
    ensures
      var called := Called(b, d, slot, i, io.calls(i), io.cancelled(i));
      if PhaseOf(called, slot.at.topic).Handling?
      then PhaseOf(called, slot.at.topic) == Handling(slot, i + 1) && i + 1 < MAX_ATTEMPTS
           && Tried(called, d, slot, Tries(d, called.invoices, io, i + 1))
              == Tried(b, d, slot, Tries(d, b.invoices, io, i))
      else called == Tried(b, d, slot, Tries(d, b.invoices, io, i))
  {
    var called := Called(b, d, slot, i, io.calls(i), io.cancelled(i));
    if PhaseOf(called, slot.at.topic).Handling? {
      var last := Tries(d, called.invoices, io, i + 1).1;
      EnterTwice(b, slot.at.topic, Handling(slot, i + 1),
                 if last == None then Succeeded(slot) else Failed(slot, last.value));
    }
  }

  lemma {:induction false} TriesTrace(s: State, slot: Slot, io: MessageIo, i: nat) returns (acts: seq<Action>)
    requires PhaseOf(s.office, slot.at.topic) == Handling(slot, i) && InLog(s.logs, slot) && i < MAX_ATTEMPTS
    ensures Valid(s, acts)
    ensures var d := DecodedAt(s.logs, slot);
            Exec(s, acts) == s.(office := Tried(s.office, d, slot, Tries(d, s.office.invoices, io, i)))
    decreases MAX_ATTEMPTS - i
  {
    acts := CallTrace(s, slot, i, io.calls(i), io.cancelled(i));
    TriesNext(s.office, DecodedAt(s.logs, slot), slot, io, i);
    var next := Exec(s, acts);
    if PhaseOf(next.office, slot.at.topic).Handling? {
      var more := TriesTrace(next, slot, io, i + 1);
      ExecAppend(s, acts, more);
      acts := acts + more;
    }
  }

  lemma FinishTrace(s: State, slot: Slot, error: Option<ErrorCode>, io: MessageIo) returns (acts: seq<Action>)
    requires PhaseOf(s.office, slot.at.topic) == if error == None then Succeeded(slot) else Failed(slot, error.value)
    requires InLog(s.logs, slot)
    ensures Valid(s, acts)
    ensures Exec(s, acts) == s.(office := Finished(s.office, KeyAt(s.logs, slot), slot, error, io))
  {
    var t, b, key := slot.at.topic, s.office, KeyAt(s.logs, slot);
    var last := Finished(b, key, slot, error, io);
    EnterTwice(b, t, Settling(slot), Idle);
    if error.Some? {
      var buried := Enter(b, t, Settling(slot)).(letters := b.letters + [DeadLetter(slot, HandlerFailed(error.value))]);
      OfficeTwo(s, Bury(t), buried, Commit(t, io.commit), last);
      acts := [Bury(t), Commit(t, io.commit)];
    } else if key !in b.processed && io.save.Acked? {
      OfficeTwo(s, Save(t, io.save), AfterSave(b, key, t, slot, io.save), Commit(t, io.commit), last);
      acts := [Save(t, io.save), Commit(t, io.commit)];
    } else {
      OfficeOne(s, Save(t, io.save), last);
      acts := [Save(t, io.save)];
    }
  }

  lemma SkipTrace(s: State, slot: Slot, io: MessageIo) returns (acts: seq<Action>)
    requires PhaseOf(s.office, slot.at.topic) == Fetched(slot) && InLog(s.logs, slot)
    requires io.checkOk && KeyAt(s.logs, slot) in s.office.processed
    ensures Valid(s, acts)
    ensures Exec(s, acts) == s.(office := CommitSlot(s.office.(skipped := s.office.skipped + {slot}), slot, io.commit))
  {
    var t, b := slot.at.topic, s.office;
    EnterTwice(b, t, Settling(slot), Idle);
    OfficeTwo(s, Check(t, true), Enter(b, t, Settling(slot)).(skipped := b.skipped + {slot}),
              Commit(t, io.commit), CommitSlot(b.(skipped := b.skipped + {slot}), slot, io.commit));
    acts := [Check(t, true), Commit(t, io.commit)];
  }

  lemma MessageTrace(s: State, slot: Slot, io: MessageIo) returns (acts: seq<Action>)
    requires PhaseOf(s.office, slot.at.topic) == Fetched(slot) && InLog(s.logs, slot)
    ensures Valid(s, acts)
    ensures Exec(s, acts) == s.(office := Processed(s.office, DecodedAt(s.logs, slot), KeyAt(s.logs, slot), slot, io))
  {
    var t, b, d := slot.at.topic, s.office, DecodedAt(s.logs, slot);
    if io.checkOk && KeyAt(s.logs, slot) in b.processed {
      acts := SkipTrace(s, slot, io);
    } else {
      OfficeOne(s, Check(t, io.checkOk), Enter(b, t, Handling(slot, 0)));
      var handling := s.(office := Enter(b, t, Handling(slot, 0)));
      var tries := TriesTrace(handling, slot, io, 0);
      var error := Tries(d, b.invoices, io, 0).1;
      EnterTwice(b, t, Handling(slot, 0), if error == None then Succeeded(slot) else Failed(slot, error.value));
      var tried := s.(office := Tried(b, d, slot, Tries(d, b.invoices, io, 0)));
      var finish := FinishTrace(tried, slot, error, io);
      ExecAppend(s, [Check(t, io.checkOk)], tries);
      ExecAppend(s, [Check(t, io.checkOk)] + tries, finish);
      acts := [Check(t, io.checkOk)] + tries + finish;
    }
  }

  // ----- What it means for the ledger and the offset -----

  /** The attempts the retry loop is allowed. */
  function Allowed(io: MessageIo, i: nat): seq<Io>
    requires i < MAX_ATTEMPTS
    decreases MAX_ATTEMPTS - i
  {
    [io.calls(i)] + if i + 1 == MAX_ATTEMPTS || io.cancelled(i) then [] else Allowed(io, i + 1)
  }

  lemma {:induction false} TriesAttempt(e: Event, table: Invoices, io: MessageIo, i: nat)
    requires i < MAX_ATTEMPTS
    ensures var (after, error) := Tries(Parsed(e), table, io, i);
            Attempt(e, table, Allowed(io, i)) == (after, error == None)
    decreases MAX_ATTEMPTS - i
  {
    var attempts := Allowed(io, i);
    var (after, error) := Handle(e, table, attempts[0]);
    if i + 1 < MAX_ATTEMPTS && !io.cancelled(i) {
      assert attempts[1..] == Allowed(io, i + 1);
      TriesAttempt(e, after, io, i + 1);
    } else {
      assert attempts[1..] == [];
    }
  }

  lemma FinishedLedger(b: Office, d: Decoded, key: string, slot: Slot,
                       result: (Invoices, Option<ErrorCode>), io: MessageIo)
    ensures
      var b' := Finished(Tried(b, d, slot, result), key, slot, result.1, io);
      && b'.invoices == result.0
      && b'.processed == if result.1 == None && io.save.Effective() then b.processed + {key} else b.processed
  {
  }

  /** On the invoice table and the processed events, the consumer is the ledger of the dedup theorem. */
  lemma ProcessedDelivers(b: Office, e: Event, slot: Slot, io: MessageIo)
    ensures var b' := Processed(b, Parsed(e), Key(e), slot, io);
            Ledger(b'.invoices, b'.processed)
            == Deliver(Delivery(e, io.checkOk, Allowed(io, 0), io.save), Ledger(b.invoices, b.processed), true)
  {
    TriesAttempt(e, b.invoices, io, 0);
    FinishedLedger(b, Parsed(e), Key(e), slot, Tries(Parsed(e), b.invoices, io, 0), io);
  }

  /** Three calls and no more, each on the table the one before it left: the first success ends them, and so
      does a cancellation between two of them. */
  lemma ThreeCalls(d: Decoded, table: Invoices, io: MessageIo)
    ensures
      var (t1, e1) := Call(d, table, io.calls(0));
      var (t2, e2) := Call(d, t1, io.calls(1));
      var (t3, e3) := Call(d, t2, io.calls(2));
      Tries(d, table, io, 0)
      == if e1 == None then (t1, None)
         else if io.cancelled(0) then (t1, Some(Shutdown))
         else if e2 == None then (t2, None)
         else if io.cancelled(1) then (t2, Some(Shutdown))
         else (t3, e3)
  {
    var t1 := Call(d, table, io.calls(0)).0;
    var t2 := Call(d, t1, io.calls(1)).0;
    assert Tries(d, t2, io, 2) == Call(d, t2, io.calls(2));
    assert Tries(d, t1, io, 1) == if Call(d, t1, io.calls(1)).1 == None then Call(d, t1, io.calls(1))
                                  else if io.cancelled(1) then (t2, Some(Shutdown)) else Tries(d, t2, io, 2);
  }

  /** The table before the i-th attempt. */
  function TableBefore(d: Decoded, table: Invoices, io: MessageIo, i: nat): Invoices {
    if i == 0 then table
    else
      var before := TableBefore(d, table, io, i - 1);
      Call(d, before, io.calls(i - 1)).0
  }

  /** The consumer's attempts end as reliability.Retry does for the errors those attempts return. */
  lemma TriesFollowRetry(d: Decoded, table: Invoices, io: MessageIo, turns: nat -> Turn, outcome: Outcome, calls: nat)
    requires Follows(3, turns, outcome, calls)
    requires forall i :: 0 <= i < 3 ==>
               && turns(i).error == Call(d, TableBefore(d, table, io, i), io.calls(i)).1
               && turns(i).cancelled == io.cancelled(i)
    ensures Tries(d, table, io, 0) == (TableBefore(d, table, io, calls), outcome.error) && outcome.Returned?
  {
    ThreeCalls(d, table, io);
    assert TableBefore(d, table, io, 1) == Call(d, table, io.calls(0)).0;
    assert TableBefore(d, table, io, 2) == Call(d, TableBefore(d, table, io, 1), io.calls(1)).0;
  }

  /** How the processing of a message ends. */
  datatype Verdict = Skipped | GaveUp(error: ErrorCode) | Unrecorded | Recorded

  function VerdictOf(b: Office, d: Decoded, key: string, io: MessageIo): Verdict {
    if io.checkOk && key in b.processed then Skipped
    else
      var error := Tries(d, b.invoices, io, 0).1;
      if error.Some? then GaveUp(error.value)
      else if key in b.processed || !io.save.Acked? then Unrecorded else Recorded
  }

  /** Save before commit: a success whose key was recorded meanwhile, or whose record failed, stays
      uncommitted; every other end is committed, and leaves its trace before it is. */
  lemma CommitNeedsRecord(b: Office, d: Decoded, key: string, slot: Slot, io: MessageIo)
    requires Committed(b, slot.at) <= slot.offset
    ensures
      var b', verdict := Processed(b, d, key, slot, io), VerdictOf(b, d, key, io);
      && (Committed(b', slot.at) == slot.offset + 1 <==> io.commit.Effective() && verdict != Unrecorded)
      && (Committed(b', slot.at) != slot.offset + 1 ==> b'.committed == b.committed)
      && match verdict
         case Skipped => slot in b'.skipped && b'.invoices == b.invoices
         case GaveUp(error) =>
           b'.letters == b.letters + [DeadLetter(slot, HandlerFailed(error))] && b'.processed == b.processed
         case Unrecorded => slot in b'.done
         case Recorded => slot in b'.done && key in b'.processed
  {
    if VerdictOf(b, d, key, io) != Skipped {
      var result := Tries(d, b.invoices, io, 0);
      TriedKeeps(b, d, slot, result);
      FinishedCommits(Tried(b, d, slot, result), key, slot, result.1, io);
    }
  }

  lemma TriedKeeps(b: Office, d: Decoded, slot: Slot, result: (Invoices, Option<ErrorCode>))
    ensures var tried := Tried(b, d, slot, result);
            && tried.committed == b.committed && tried.processed == b.processed
            && (result.1 == None ==> slot in tried.done) && (result.1.Some? ==> tried.letters == b.letters)
  {
  }

  lemma FinishedCommits(b: Office, key: string, slot: Slot, error: Option<ErrorCode>, io: MessageIo)
    requires Committed(b, slot.at) <= slot.offset
    ensures
      var b' := Finished(b, key, slot, error, io);
      var recorded := key !in b.processed && io.save.Acked?;
      && (Committed(b', slot.at) == slot.offset + 1 <==> io.commit.Effective() && (error.Some? || recorded))
      && (Committed(b', slot.at) != slot.offset + 1 ==> b'.committed == b.committed)
      && b'.done == b.done && (error == None && recorded ==> key in b'.processed)
      && (error.Some? ==> b'.processed == b.processed
                          && b'.letters == b.letters + [DeadLetter(slot, HandlerFailed(error.value))])
  {
  }

  // ----- The classes -----

  /** Send marshals, writes and drops any error: what is known afterwards is that it was attempted. */
  class DlqProducer {
    var attempted: seq<DeadLetter>
    var delivered: seq<DeadLetter>

    constructor ()
      ensures attempted == [] && delivered == []
    {
      attempted, delivered := [], [];
    }

    method Send(letter: DeadLetter, ack: Ack)
      modifies this
      ensures attempted == old(attempted) + [letter]
      ensures delivered == if !ack.Lost? then old(delivered) + [letter] else old(delivered)
    {
      attempted := attempted + [letter];
      if ack.Effective() {
        delivered := delivered + [letter];
      }
    }
  }

  /** The offsets of the consumer group: fetch positions and commits. */
  class Offsets {
    var position: map<Partition, nat>
    var committed: map<Partition, nat>

    constructor ()
      ensures position == map[] && committed == map[]
    {
      position, committed := map[], map[];
    }

    /** The next message of some partition; an error when the fetch fails. */
    method FetchMessage(logs: Logs, at: Partition, ok: bool) returns (m: Message, offset: nat, failed: bool)
      modifies this`position
      ensures var p := if at in old(position) then old(position)[at] else 0;
              && (failed <==> !ok || p >= |Log(logs, at)|)
              && if failed then position == old(position)
                 else offset == p && m == Log(logs, at)[p] && position == old(position)[at := p + 1]
    {
      offset := if at in position then position[at] else 0;
      if !ok || offset >= |Log(logs, at)| {
        return Message(at.topic, "", [], Malformed("")), 0, true;
      }
      position := position[at := offset + 1];
      return Log(logs, at)[offset], offset, false;
    }

    /** Committing an offset covers everything before it. */
    method CommitMessages(slot: Slot, ack: Ack) returns (failed: bool)
      modifies this`committed
      ensures failed <==> !ack.Acked?
      ensures committed == if !ack.Lost? then old(committed)[slot.at := slot.offset + 1] else old(committed)
    {
      if ack.Effective() {
        committed := committed[slot.at := slot.offset + 1];
      }
      return !ack.Acked?;
    }
  }

  class OrderHandler {
    const service: BillingService
    const dlq: DlqProducer

    constructor (service: BillingService, dlq: DlqProducer)
      ensures this.service == service && this.dlq == dlq
    {
      this.service, this.dlq := service, dlq;
    }

    /** An unknown topic is skipped, a payload that does not parse or names no order goes to the DLQ, and
        both count as handled. */
    method Handle(slot: Slot, m: Message, io: Io, ack: Ack) returns (error: Option<ErrorCode>)
      requires !io.panics
      modifies service, service.db`invoices, dlq
      ensures (service.db.invoices, error) == Call(Decode(m.topic, m.value), old(service.db.invoices), io)
      ensures Decode(m.topic, m.value).Refused? ==>
                error == None && dlq.attempted == old(dlq.attempted) + [DeadLetter(slot, RefusedPayload)]
      ensures !Decode(m.topic, m.value).Refused? ==> dlq.attempted == old(dlq.attempted)
      ensures Decode(m.topic, m.value).UnknownTopic? ==> error == None
    {
      match Decode(m.topic, m.value) {
        case UnknownTopic =>
          return None;
        case Refused =>
          dlq.Send(DeadLetter(slot, RefusedPayload), ack);
          return None;
        case Parsed(e) =>
          error := service.HandleEvent(e, io);
      }
    }

    /** A panic is recovered into an error. */
    method SafeHandle(slot: Slot, m: Message, io: Io, ack: Ack) returns (error: Option<ErrorCode>)
      modifies service, service.db`invoices, dlq
      ensures (service.db.invoices, error) == Call(Decode(m.topic, m.value), old(service.db.invoices), io)
      ensures dlq.attempted == old(dlq.attempted) + Refusals(Decode(m.topic, m.value), slot, error)
    {
      if io.panics {
        return Some(Panic);
      }
      error := Handle(slot, m, io, ack);
    }
  }

  /** The letters of a call: one for a refused payload. */
  function Refusals(d: Decoded, slot: Slot, error: Option<ErrorCode>): seq<DeadLetter> {
    if d.Refused? && error == None then [DeadLetter(slot, RefusedPayload)] else []
  }

  /** What one round of the fetch loop meets. */
  datatype RoundIo = RoundIo(number: nat, fetchOk: bool, message: MessageIo)

  class Consumer {
    const topic: Topic
    const reader: Offsets
    const handler: OrderHandler
    const dlq: DlqProducer
    const db: BillingDb
    var consumed: nat
    var failed: nat

    constructor (topic: Topic, reader: Offsets, handler: OrderHandler)
      ensures this.topic == topic && this.reader == reader && this.handler == handler
      ensures dlq == handler.dlq && db == handler.service.db && consumed == 0 && failed == 0
    {
      this.topic, this.reader, this.handler := topic, reader, handler;
      dlq, db, consumed, failed := handler.dlq, handler.service.db, 0, 0;
    }

    /** Consumer and handler share the database and the DLQ producer. */
    ghost predicate Wired() { dlq == handler.dlq && db == handler.service.db }

    /** The tables, offsets and letters are those of a protocol state. */
    ghost predicate Shows(b: Office)
      reads db, dlq, reader
    {
      && db.invoices == b.invoices && db.processed == b.processed && dlq.attempted == b.letters
      && reader.position == b.position && reader.committed == b.committed
    }

    /** reliability.Retry with three attempts around the guarded handler. */
    method HandleWithRetry(slot: Slot, m: Message, io: MessageIo) returns (error: Option<ErrorCode>)
      requires Wired()
      modifies handler.service, db`invoices, dlq
      ensures (db.invoices, error) == Tries(Decode(m.topic, m.value), old(db.invoices), io, 0)
      ensures
        var d := Decode(m.topic, m.value);
        var (t1, e1) := Call(d, old(db.invoices), io.calls(0));
        var (t2, e2) := Call(d, t1, io.calls(1));
        var (t3, e3) := Call(d, t2, io.calls(2));
        && (error == None <==> e1 == None || (!io.cancelled(0) && (e2 == None || (!io.cancelled(1) && e3 == None))))
        && (error.Some? && error != Some(Shutdown) ==> e1.Some? && e2.Some? && error == e3 && db.invoices == t3)
      ensures dlq.attempted == old(dlq.attempted) + Refusals(Decode(m.topic, m.value), slot, error)
    {
      ghost var d := Decode(m.topic, m.value);
      ThreeCalls(d, db.invoices, io);
      error := None;
      for i := 0 to MAX_ATTEMPTS
        invariant i < MAX_ATTEMPTS ==> Tries(d, old(db.invoices), io, 0) == Tries(d, db.invoices, io, i)
        invariant i == MAX_ATTEMPTS ==> error.Some? && Tries(d, old(db.invoices), io, 0) == (db.invoices, error)
        invariant dlq.attempted == old(dlq.attempted)
      {
        error := handler.SafeHandle(slot, m, io.calls(i), io.dlq);
        if error == None {
          return None;
        }
        if i < MAX_ATTEMPTS - 1 {
          if io.cancelled(i) {
            return Some(Shutdown);
          }
        }
      }
    }

    /** After the attempts: a failure is sent to the DLQ and committed, a success saved and then committed. */
    method Conclude(slot: Slot, eventId: string, error: Option<ErrorCode>, io: MessageIo, ghost b: Office)
      requires Wired() && Shows(b)
      modifies this`consumed, this`failed, db`processed, dlq, reader`committed
      ensures Shows(Finished(b, eventId, slot, error, io))
      ensures consumed == old(consumed)
                          + (if error == None && eventId !in old(db.processed) && io.save.Acked? then 1 else 0)
      ensures failed == old(failed) + (if error.Some? then 1 else 0)
    {
      if error.Some? {
        failed := failed + 1;
        dlq.Send(DeadLetter(slot, HandlerFailed(error.value)), io.dlq);
        var uncommitted := reader.CommitMessages(slot, io.commit);
        return;
      }
      var unsaved := db.Save(eventId, io.save);
      if unsaved {
        return;
      }
      var uncommitted := reader.CommitMessages(slot, io.commit);
      consumed := consumed + 1;
    }

    /** The business key of the headers, or the place of a message that lacks them. */
    method EventId(slot: Slot, m: Message) returns (eventId: string)
      ensures eventId == KeyOf(m, slot.at.number, slot.offset)
    {
      var orderId := ExtractHeader(m.headers, "order-id");
      var eventType := ExtractHeader(m.headers, "event-type");
      if orderId != "" && eventType != "" {
        return EventKey(eventType, orderId);
      }
      return FallbackKey(m.topic.Name(), slot.at.number, slot.offset);
    }

    /** One message from the dedup check to the commit, with the outcome Processed; MessageTrace shows it
        as a run of the protocol. */
    method ProcessMessage(slot: Slot, m: Message, io: MessageIo, ghost b: Office)
      requires Wired() && Shows(b)
      modifies this`consumed, this`failed, handler.service, db, dlq, reader`committed
      ensures Shows(Processed(b, Decode(m.topic, m.value), KeyOf(m, slot.at.number, slot.offset), slot, io))
      ensures
        var verdict := VerdictOf(b, Decode(m.topic, m.value), KeyOf(m, slot.at.number, slot.offset), io);
        && consumed == old(consumed) + (if verdict.Recorded? then 1 else 0)
        && failed == old(failed) + (if verdict.GaveUp? then 1 else 0)
    {
      var eventId := EventId(slot, m);
      var known, checkFailed := db.Exists(eventId, io.checkOk);
      if known {
        var uncommitted := reader.CommitMessages(slot, io.commit);
        return;
      }
      ghost var d := Decode(m.topic, m.value);
      var error := HandleWithRetry(slot, m, io);
      Conclude(slot, eventId, error, io, Tried(b, d, slot, Tries(d, b.invoices, io, 0)));
    }

    /** One turn of the fetch loop, which an error of the fetch ends early. */
    method Round(round: RoundIo, logs: Logs, ghost s: State) returns (ghost acts: seq<Action>, ghost next: Office)
      requires Wired() && PhaseOf(s.office, topic).Idle? && s.logs == logs && Shows(s.office)
      modifies this`consumed, this`failed, handler.service, db, dlq, reader
      ensures Valid(s, acts) && Exec(s, acts) == s.(office := next)
      ensures Shows(next) && PhaseOf(next, topic).Idle?
    {
      acts, next := [], s.office;
      var at := Partition(topic, round.number);
      var m, offset, failed := reader.FetchMessage(logs, at, round.fetchOk);
      if failed {
        return;
      }
      var slot := Slot(at, offset);
      assert Shows(Taken(s.office, slot));
      acts, next := RoundTrace(s, slot, m, round.message);
      ProcessMessage(slot, m, round.message, Taken(s.office, slot));
    }

    /** The fetch loop for a number of rounds is a run of the protocol. */
    method Start(rounds: nat, io: nat -> RoundIo, logs: Logs, ghost s: State)
      returns (ghost acts: seq<Action>, ghost next: Office)
      requires Wired() && PhaseOf(s.office, topic).Idle? && s.logs == logs && Shows(s.office)
      modifies this`consumed, this`failed, handler.service, db, dlq, reader
      ensures Valid(s, acts) && Exec(s, acts) == s.(office := next)
      ensures Shows(next) && PhaseOf(next, topic).Idle?
    {
      acts, next := [], s.office;
      for n := 0 to rounds
        invariant Valid(s, acts) && Exec(s, acts) == s.(office := next)
        invariant Shows(next) && PhaseOf(next, topic).Idle?
      {
        ghost var more;
        more, next := Round(io(n), logs, s.(office := next));
        ExecAppend(s, acts, more);
        acts := acts + more;
      }
    }
  }

  lemma ProcessedIdle(b: Office, d: Decoded, key: string, slot: Slot, io: MessageIo)
    ensures PhaseOf(Processed(b, d, key, slot, io), slot.at.topic).Idle?
  {
    var tried := Tried(b, d, slot, Tries(d, b.invoices, io, 0));
    FinishedIdle(tried, key, slot, Tries(d, b.invoices, io, 0).1, io);
  }

  lemma FinishedIdle(b: Office, key: string, slot: Slot, error: Option<ErrorCode>, io: MessageIo)
    ensures PhaseOf(Finished(b, key, slot, error, io), slot.at.topic).Idle?
  {
  }

  /** A fetch takes the message at the position of its partition. */
  function Taken(b: Office, slot: Slot): Office {
    Enter(b, slot.at.topic, Fetched(slot)).(position := b.position[slot.at := slot.offset + 1])
  }

  /** One round as a run: the fetch, and the processing of what it returned. */
  lemma RoundTrace(s: State, slot: Slot, m: Message, io: MessageIo) returns (acts: seq<Action>, next: Office)
    requires PhaseOf(s.office, slot.at.topic).Idle? && Position(s.office, slot.at) == slot.offset
    requires InLog(s.logs, slot) && MessageAt(s.logs, slot) == m
    ensures Valid(s, acts) && Exec(s, acts) == s.(office := next) && PhaseOf(next, slot.at.topic).Idle?
    ensures next == Processed(Taken(s.office, slot), Decode(m.topic, m.value),
                              KeyOf(m, slot.at.number, slot.offset), slot, io)
  {
    var fetch, taken := Fetch(slot.at), Taken(s.office, slot);
    OfficeOne(s, fetch, taken);
    var more := MessageTrace(s.(office := taken), slot, io);
    ProcessedIdle(taken, DecodedAt(s.logs, slot), KeyAt(s.logs, slot), slot, io);
    ExecAppend(s, [fetch], more);
    acts, next := [fetch] + more, Exec(s.(office := taken), more).office;
  }
}

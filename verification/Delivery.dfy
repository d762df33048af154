/** Invariants of the three consumers: what a committed offset guarantees, over runs with crashes,
    failed saves, failed commits and lost idempotency records. */
module Delivery {
  import opened Domain
  import opened Protocol

  predicate Working(p: Phase) { p.Fetched? || p.Handling? || p.Writing? || p.Failed? }

  ghost predicate Buried(b: Office, slot: Slot) {
    exists i :: 0 <= i < |b.letters| && b.letters[i].slot == slot
  }

  /** The handler returned nil, or the slot was skipped, or a DLQ send was attempted. */
  ghost predicate Settled(b: Office, slot: Slot) {
    slot in b.done || slot in b.skipped || Buried(b, slot)
  }

  /** An earlier success of the same key. */
  ghost predicate KnownSuccess(b: Office, logs: Logs, key: string) {
    exists d :: d in b.done && InLog(logs, d) && KeyAt(logs, d) == key
  }

  /** Commits never outrun fetches, fetches never outrun the log, and a message in hand is the last one
      fetched from its partition and not yet committed. */
  ghost predicate OffsetsOk(b: Office, logs: Logs) {
    && (forall at :: Committed(b, at) <= Position(b, at) <= |Log(logs, at)|)
    && forall t :: !PhaseOf(b, t).Idle? ==>
         var slot := PhaseOf(b, t).slot;
         && slot.at.topic == t && slot.offset + 1 == Position(b, slot.at)
         && (Working(PhaseOf(b, t)) ==> Committed(b, slot.at) <= slot.offset)
  }

  /** Everything fetched is settled, except what is being worked on. */
  ghost predicate FetchedOk(b: Office) {
    && (forall t :: PhaseOf(b, t).Succeeded? ==> PhaseOf(b, t).slot in b.done)
    && (forall slot: Slot :: slot.offset < Position(b, slot.at) ==>
          Settled(b, slot) || (Working(PhaseOf(b, slot.at.topic)) && PhaseOf(b, slot.at.topic).slot == slot))
  }

  ghost predicate KeysOk(b: Office, logs: Logs) {
    && (forall d :: d in b.done ==> InLog(logs, d))
    && (forall k :: k in b.processed ==> KnownSuccess(b, logs, k))
    && (forall d :: d in b.skipped ==> InLog(logs, d) && KnownSuccess(b, logs, KeyAt(logs, d)))
    && (forall i :: 0 <= i < |b.letters| ==> InLog(logs, b.letters[i].slot))
  }

  ghost predicate DeliveryInv(b: Office, logs: Logs) {
    OffsetsOk(b, logs) && FetchedOk(b) && KeysOk(b, logs)
  }

  // ----- Growing logs -----

  ghost predicate Grows(logs: Logs, logs': Logs) {
    forall at :: Log(logs, at) <= Log(logs', at)
  }

  lemma GrownSlot(logs: Logs, logs': Logs, slot: Slot)
    requires Grows(logs, logs') && InLog(logs, slot)
    ensures InLog(logs', slot) && MessageAt(logs', slot) == MessageAt(logs, slot)
  {
    assert Log(logs, slot.at) <= Log(logs', slot.at);
  }

  lemma SalesGrowLogs(s: Sales, logs: Logs, a: Action)
    requires a.RelayPublish? ==> s.relay.batch != []
    ensures Grows(logs, LogsEffect(s, logs, a))
  {
  }

  lemma GrowthKeeps(b: Office, logs: Logs, logs': Logs)
    requires DeliveryInv(b, logs) && Grows(logs, logs')
    ensures DeliveryInv(b, logs')
  {
    forall slot | InLog(logs, slot) ensures InLog(logs', slot) && MessageAt(logs', slot) == MessageAt(logs, slot) {
      GrownSlot(logs, logs', slot);
    }
    forall k | KnownSuccess(b, logs, k) ensures KnownSuccess(b, logs', k) {
      var d :| d in b.done && InLog(logs, d) && KeyAt(logs, d) == k;
      assert d in b.done && InLog(logs', d) && KeyAt(logs', d) == k;
    }
    forall at ensures |Log(logs, at)| <= |Log(logs', at)| {
      assert Log(logs, at) <= Log(logs', at);
    }
  }

  // ----- Steps of the consumers -----

  /** History only grows. */
  ghost predicate Extends(b: Office, b': Office) {
    b.done <= b'.done && b.skipped <= b'.skipped && b.letters <= b'.letters
  }

  lemma ExtendsKeeps(b: Office, b': Office, logs: Logs)
    requires Extends(b, b')
    ensures forall slot :: Settled(b, slot) ==> Settled(b', slot)
    ensures forall k :: KnownSuccess(b, logs, k) ==> KnownSuccess(b', logs, k)
  {
    forall slot | Buried(b, slot) ensures Buried(b', slot) {
      var i :| 0 <= i < |b.letters| && b.letters[i].slot == slot;
      assert b'.letters[i].slot == slot;
    }
  }

  predicate Advancing(a: Action) {
    a.Check? || a.Get? || a.Put? || a.Fault? || a.Bury? || a.Save?
  }

  /** One consumer gets on with the message in hand: it keeps its slot or becomes idle, never goes back
      to work on a settled message, and leaves work only with the message settled. */
  ghost predicate Moves(b: Office, b': Office, t: Topic) {
    var p, p' := PhaseOf(b, t), PhaseOf(b', t);
    && Extends(b, b') && b'.position == b.position && b'.committed == b.committed
    && b'.phases == b.phases[t := p'] && !p.Idle?
    && (!p'.Idle? ==> p'.slot == p.slot)
    && (Working(p') ==> Working(p)) && (Working(p) && !Working(p') ==> Settled(b', p.slot))
    && (p'.Succeeded? ==> p'.slot in b'.done)
  }

  lemma AdvancingMoves(b: Office, logs: Logs, a: Action)
    requires Advancing(a) && OfficeEnabled(b, logs, a)
    ensures Moves(b, OfficeEffect(b, logs, a), a.topic)
  {
    if a.Get? {
      GetMoves(b, logs, a);
    } else if a.Put? {
      PutMoves(b, logs, a);
    } else {
      var b' := OfficeEffect(b, logs, a);
      if a.Bury? {
        assert b'.letters[|b.letters|].slot == PhaseOf(b, a.topic).slot;
      }
    }
  }

  lemma GetMoves(b: Office, logs: Logs, a: Action)
    requires a.Get? && OfficeEnabled(b, logs, a)
    ensures Moves(b, OfficeEffect(b, logs, a), a.topic)
  {
  }

  lemma PutMoves(b: Office, logs: Logs, a: Action)
    requires a.Put? && OfficeEnabled(b, logs, a)
    ensures Moves(b, OfficeEffect(b, logs, a), a.topic)
  {
  }

  lemma MovesFrame(b: Office, b': Office, t: Topic)
    requires Moves(b, b', t)
    ensures forall u :: u != t ==> PhaseOf(b', u) == PhaseOf(b, u)
    ensures forall at :: Position(b', at) == Position(b, at) && Committed(b', at) == Committed(b, at)
  {
  }

  lemma MovesOffsets(b: Office, b': Office, logs: Logs, t: Topic)
    requires OffsetsOk(b, logs) && Moves(b, b', t)
    ensures OffsetsOk(b', logs)
  {
    MovesFrame(b, b', t);
  }

  lemma MovesFetched(b: Office, b': Office, logs: Logs, t: Topic)
    requires FetchedOk(b) && Moves(b, b', t)
    ensures FetchedOk(b')
  {
    MovesFrame(b, b', t);
    ExtendsKeeps(b, b', logs);
  }

  lemma MovesKeeps(b: Office, b': Office, logs: Logs, t: Topic)
    requires OffsetsOk(b, logs) && FetchedOk(b) && Moves(b, b', t)
    ensures OffsetsOk(b', logs) && FetchedOk(b')
  {
    MovesOffsets(b, b', logs, t);
    MovesFetched(b, b', logs, t);
  }

  /** A fetch takes the message at the position of its partition in hand. */
  ghost predicate Takes(b: Office, b': Office, at: Partition) {
    && Extends(b, b') && PhaseOf(b, at.topic).Idle?
    && PhaseOf(b', at.topic) == Fetched(Slot(at, Position(b, at))) && Position(b', at) == Position(b, at) + 1
    && (forall u :: u != at.topic ==> PhaseOf(b', u) == PhaseOf(b, u))
    && (forall p :: p != at ==> Position(b', p) == Position(b, p))
    && (forall p :: Committed(b', p) == Committed(b, p))
  }

  lemma FetchTakes(b: Office, logs: Logs, at: Partition)
    requires OfficeEnabled(b, logs, Fetch(at))
    ensures Takes(b, OfficeEffect(b, logs, Fetch(at)), at)
  {
  }

  lemma TakesOffsets(b: Office, b': Office, logs: Logs, at: Partition)
    requires OffsetsOk(b, logs) && Takes(b, b', at) && Position(b, at) < |Log(logs, at)|
    ensures OffsetsOk(b', logs)
  {
  }

  lemma TakesFetched(b: Office, b': Office, logs: Logs, at: Partition)
    requires FetchedOk(b) && Takes(b, b', at)
    ensures FetchedOk(b')
  {
    ExtendsKeeps(b, b', logs);
  }

  lemma FetchKeeps(b: Office, logs: Logs, at: Partition)
    requires OffsetsOk(b, logs) && FetchedOk(b) && OfficeEnabled(b, logs, Fetch(at))
    ensures var b' := OfficeEffect(b, logs, Fetch(at)); OffsetsOk(b', logs) && FetchedOk(b')
  {
    var b' := OfficeEffect(b, logs, Fetch(at));
    FetchTakes(b, logs, at);
    TakesOffsets(b, b', logs, at);
    TakesFetched(b, b', logs, at);
  }

  lemma CommitKeeps(b: Office, logs: Logs, t: Topic, ack: Ack)
    requires OffsetsOk(b, logs) && FetchedOk(b) && OfficeEnabled(b, logs, Commit(t, ack))
    ensures var b' := OfficeEffect(b, logs, Commit(t, ack)); OffsetsOk(b', logs) && FetchedOk(b')
  {
    var b' := OfficeEffect(b, logs, Commit(t, ack));
    ExtendsKeeps(b, b', logs);
    forall u | u != t ensures PhaseOf(b', u) == PhaseOf(b, u) {
    }
    forall p ensures Position(b', p) == Position(b, p) {
    }
    forall p | p != PhaseOf(b, t).slot.at ensures Committed(b', p) == Committed(b, p) {
    }
  }

  /** A crash drops what is in hand and rewinds to the committed offsets, below which all is settled. */
  lemma CrashKeeps(b: Office, logs: Logs)
    requires OffsetsOk(b, logs) && FetchedOk(b)
    ensures var b' := OfficeEffect(b, logs, BillingServiceCrash); OffsetsOk(b', logs) && FetchedOk(b')
  {
    var b' := OfficeEffect(b, logs, BillingServiceCrash);
    ExtendsKeeps(b, b', logs);
    forall p ensures Position(b', p) == Committed(b, p) == Committed(b', p) {
    }
  }

  lemma ForgetKeeps(b: Office, logs: Logs, keys: set<string>)
    requires OffsetsOk(b, logs) && FetchedOk(b)
    ensures var b' := OfficeEffect(b, logs, Forget(keys)); OffsetsOk(b', logs) && FetchedOk(b')
  {
    var b' := OfficeEffect(b, logs, Forget(keys));
    ExtendsKeeps(b, b', logs);
    forall u ensures PhaseOf(b', u) == PhaseOf(b, u) {
    }
    forall p ensures Position(b', p) == Position(b, p) && Committed(b', p) == Committed(b, p) {
    }
  }

  lemma OffsetsStep(b: Office, logs: Logs, a: Action)
    requires OffsetsOk(b, logs) && FetchedOk(b) && !a.OfSales() && OfficeEnabled(b, logs, a)
    ensures var b' := OfficeEffect(b, logs, a); OffsetsOk(b', logs) && FetchedOk(b')
  {
    if Advancing(a) {
      AdvancingMoves(b, logs, a);
      MovesKeeps(b, OfficeEffect(b, logs, a), logs, a.topic);
    } else {
      match a {
        case Fetch(at) => FetchKeeps(b, logs, at);
        case Commit(t, ack) => CommitKeeps(b, logs, t, ack);
        case BillingServiceCrash => CrashKeeps(b, logs);
        case Forget(keys) => ForgetKeeps(b, logs, keys);
      }
    }
  }

  /** What a step may add to the records, all of it about one slot of the log. */
  ghost predicate Records(b: Office, b': Office, logs: Logs, slot: Slot) {
    && Extends(b, b') && InLog(logs, slot)
    && b'.done <= b.done + {slot} && b'.skipped <= b.skipped + {slot}
    && (slot in b'.skipped && slot !in b.skipped ==> KeyAt(logs, slot) in b.processed)
    && (forall k :: k in b'.processed && k !in b.processed ==> k == KeyAt(logs, slot) && slot in b.done)
    && (b'.letters == b.letters || (|b'.letters| == |b.letters| + 1 && b'.letters[|b.letters|].slot == slot))
  }

  lemma AdvancingRecords(b: Office, logs: Logs, a: Action)
    requires OffsetsOk(b, logs) && FetchedOk(b) && Advancing(a) && OfficeEnabled(b, logs, a)
    ensures Records(b, OfficeEffect(b, logs, a), logs, PhaseOf(b, a.topic).slot)
  {
    var slot := PhaseOf(b, a.topic).slot;
    assert Position(b, slot.at) <= |Log(logs, slot.at)|;
  }

  lemma RecordsKeep(b: Office, b': Office, logs: Logs, slot: Slot)
    requires KeysOk(b, logs) && Records(b, b', logs, slot)
    ensures KeysOk(b', logs)
  {
    ExtendsKeeps(b, b', logs);
    forall i | 0 <= i < |b'.letters| ensures InLog(logs, b'.letters[i].slot) {
      if i < |b.letters| {
        assert b'.letters[i] == b.letters[i];
      }
    }
    forall k | k in b'.processed ensures KnownSuccess(b', logs, k) {
      if k !in b.processed {
        assert slot in b'.done;
      }
    }
  }

  lemma KeysStep(b: Office, logs: Logs, a: Action)
    requires DeliveryInv(b, logs) && !a.OfSales() && OfficeEnabled(b, logs, a)
    ensures KeysOk(OfficeEffect(b, logs, a), logs)
  {
    if Advancing(a) {
      AdvancingRecords(b, logs, a);
      RecordsKeep(b, OfficeEffect(b, logs, a), logs, PhaseOf(b, a.topic).slot);
    } else {
      ExtendsKeeps(b, OfficeEffect(b, logs, a), logs);
    }
  }

  lemma DeliveryStep(s: State, a: Action)
    requires DeliveryInv(s.office, s.logs)
    ensures DeliveryInv(Apply(s, a).office, Apply(s, a).logs)
  {
    if Enabled(s, a) {
      if a.OfSales() {
        SalesGrowLogs(s.sales, s.logs, a);
        GrowthKeeps(s.office, s.logs, Apply(s, a).logs);
      } else {
        OffsetsStep(s.office, s.logs, a);
        KeysStep(s.office, s.logs, a);
      }
    }
  }

  lemma {:induction false} DeliveryInvHolds(acts: seq<Action>)
    ensures var s := Exec(INIT, acts); DeliveryInv(s.office, s.logs)
  {
    if acts != [] {
      DeliveryInvHolds(acts[..|acts| - 1]);
      DeliveryStep(Exec(INIT, acts[..|acts| - 1]), acts[|acts| - 1]);
    }
  }
}

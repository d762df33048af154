/** What single steps do, in plain terms: publications, crashes and exhausted attempts. */
module Steps {
  import opened Prelude
  import opened Domain
  import opened Dispatch
  import opened Protocol
  import opened Invoicing

  // ----- Publications -----

  /** What a step sends to a partition: the message of the row at hand, on a publication that is not lost. */
  ghost function Sends(s: State, a: Action, at: Partition): seq<Message> {
    if a.RelayPublish? && Enabled(s, a) && !a.ack.Lost?
       && s.sales.relay.batch[0].topic == at.topic && a.number == at.number
    then [MessageOf(s.sales.relay.batch[0])] else []
  }

  ghost function SentTo(acts: seq<Action>, at: Partition): seq<Message> {
    if acts == [] then []
    else
      var prefix := acts[..|acts| - 1];
      SentTo(prefix, at) + Sends(Exec(INIT, prefix), acts[|acts| - 1], at)
  }

  lemma LogStep(s: State, a: Action, at: Partition)
    ensures Log(Apply(s, a).logs, at) == Log(s.logs, at) + Sends(s, a, at)
  {
  }

  /** In every run each log is exactly the sequence of the publications to it: one message for each, in order,
      and no other. */
  lemma {:induction false} LogsAreSends(acts: seq<Action>, at: Partition)
    ensures Log(Exec(INIT, acts).logs, at) == SentTo(acts, at)
  {
    if acts != [] {
      LogsAreSends(acts[..|acts| - 1], at);
      LogStep(Exec(INIT, acts[..|acts| - 1]), acts[|acts| - 1], at);
    }
  }

  // ----- Crashes -----

  /** The billing service may crash in any state. What it had in hand is gone and its fetch positions are the
      committed offsets; tables, commits, letters, logs and the order service are as they were. */
  lemma BillingCrash(s: State)
    ensures
      var s' := Apply(s, BillingServiceCrash);
      && Enabled(s, BillingServiceCrash) && s'.sales == s.sales && s'.logs == s.logs
      && s'.office.invoices == s.office.invoices && s'.office.processed == s.office.processed
      && s'.office.committed == s.office.committed && s'.office.letters == s.office.letters
      && (forall t :: PhaseOf(s'.office, t) == Idle)
      && (forall at :: Position(s'.office, at) == Committed(s.office, at))
  {
  }

  /** So may the order service: its requests and the relay's batch are gone, its tables and the logs are not. */
  lemma OrderCrash(s: State)
    ensures
      var s' := Apply(s, OrderServiceCrash);
      && Enabled(s, OrderServiceCrash) && s'.logs == s.logs && s'.office == s.office
      && s'.sales.orders == s.sales.orders && s'.sales.outbox == s.sales.outbox
      && s'.sales.requests == map[] && s'.sales.relay.batch == []
  {
  }

  /** The record of processed events may be lost at any time, in whole or in part. */
  lemma RecordsMayVanish(s: State, keys: set<string>)
    ensures Enabled(s, Forget(keys)) && Apply(s, Forget(keys)).office.processed == s.office.processed - keys
  {
  }

  // ----- Attempts -----

  /** A handler may panic before its read and before its write; the attempt has then failed. */
  lemma PanicAnywhere(s: State, t: Topic, cancelled: bool)
    requires PhaseOf(s.office, t).Handling? || PhaseOf(s.office, t).Writing?
    ensures
      var p := PhaseOf(s.office, t);
      var s' := Apply(s, Fault(t, cancelled));
      && Enabled(s, Fault(t, cancelled)) && s'.sales == s.sales && s'.logs == s.logs
      && PhaseOf(s'.office, t) == AfterError(p.slot, p.attempt, Panic, cancelled)
      && s'.office.invoices == s.office.invoices && s'.office.letters == s.office.letters
  {
  }

  /** A refused payload is dead-lettered at once and counts as handled; an unknown topic is only skipped. */
  lemma RefusedIsBuried(s: State, t: Topic, ok: bool, cancelled: bool)
    requires Enabled(s, Get(t, ok, cancelled)) && !DecodedAt(s.logs, PhaseOf(s.office, t).slot).Parsed?
    ensures
      var slot := PhaseOf(s.office, t).slot;
      var b, b' := s.office, Apply(s, Get(t, ok, cancelled)).office;
      && b'.done == b.done + {slot} && PhaseOf(b', t) == Succeeded(slot)
      && b'.letters == b.letters + if DecodedAt(s.logs, slot).Refused? then [DeadLetter(slot, RefusedPayload)] else []
  {
  }

  /** The attempts made on the message in hand since it was fetched, and whether each of them failed. */
  predicate GivenUp(p: Phase) { p.Failed? && p.error != Shutdown }

  /** A failed attempt, whatever the step, is the first, the second or the third; only the third ends in giving
      up for its own error, and an earlier one is followed by another unless the context is cancelled. */
  lemma ThirdAttemptIsLast(slot: Slot, attempt: nat, error: ErrorCode, cancelled: bool)
    requires error != Shutdown
    ensures var p := AfterError(slot, attempt, error, cancelled);
            && (GivenUp(p) <==> attempt >= 2)
            && (attempt < 2 ==> p == if cancelled then Failed(slot, Shutdown) else Handling(slot, attempt + 1))
  {
  }
}

/** order_service/internal/outbox/relay.go: the polling relay from the outbox to the broker. */
module Relaying {
  import opened Prelude
  import opened Domain
  import opened Outbox
  import opened Protocol
  import opened Ordering

  /** The broker as the relay's writer sees it: an acknowledged write is in the log. */
  class Broker {
    var logs: Logs

    constructor ()
      ensures logs == map[]
    {
      logs := map[];
    }

    method WriteMessages(m: Message, number: nat, ack: Ack) returns (failed: bool)
      modifies this
      ensures failed <==> !ack.Acked?
      ensures logs == if !ack.Lost? then Append(old(logs), Partition(m.topic, number), m) else old(logs)
      ensures !ack.Lost? ==>
                var p := Partition(m.topic, number);
                && Log(logs, p) == Log(old(logs), p) + [m]
                && forall q :: q != p ==> Log(logs, q) == Log(old(logs), q)
    {
      if ack.Effective() {
        logs := Append(logs, Partition(m.topic, number), m);
      }
      return !ack.Acked?;
    }
  }

  /** For one row: the partition the balancer picks, and the fates of its publication and its marking. */
  datatype RowIo = RowIo(number: nat, publish: Ack, mark: Ack)

  datatype CycleIo = CycleIo(fetchOk: bool, rows: nat -> RowIo)

  /** Among the first n rows of the batch, the row with this id was published and its marking took effect. */
  ghost predicate MarkedAmong(batch: seq<OutboxRow>, io: nat -> RowIo, n: nat, id: string)
    requires n <= |batch|
  {
    exists k: nat :: k < n && batch[k].id == id && io(k).publish.Acked? && io(k).mark.Effective()
  }

  function Marked(row: OutboxRow, yes: bool): OutboxRow {
    if yes then row.(status := RowSent) else row
  }

  /** The logs after the first n rows of the batch, each attempted once and in order. */
  function PublishFirst(logs: Logs, batch: seq<OutboxRow>, io: nat -> RowIo, n: nat): Logs
    requires n <= |batch|
  {
    if n == 0 then logs
    else
      var before := PublishFirst(logs, batch, io, n - 1);
      if io(n - 1).publish.Effective()
      then Append(before, Partition(batch[n - 1].topic, io(n - 1).number), MessageOf(batch[n - 1]))
      else before
  }

  /** The outbox after the first n rows of the batch. */
  ghost predicate MarkedFirst(outbox: seq<OutboxRow>, outbox': seq<OutboxRow>, batch: seq<OutboxRow>,
                              io: nat -> RowIo, n: nat)
    requires n <= |batch|
  {
    && |outbox'| == |outbox|
    && forall i :: 0 <= i < |outbox| ==> outbox'[i] == Marked(outbox[i], MarkedAmong(batch, io, n, outbox[i].id))
  }

  class Relay {
    const repo: OrderDb
    const broker: Broker
    const batchSize: nat

    constructor (repo: OrderDb, broker: Broker, batchSize: int)
      ensures this.repo == repo && this.broker == broker
      ensures this.batchSize == if batchSize <= 0 then 50 else batchSize
    {
      this.repo, this.broker := repo, broker;
      this.batchSize := if batchSize <= 0 then 50 else batchSize;
    }

    /** The relay is idle in a protocol state with these tables and logs. */
    ghost predicate Shows(s: State)
      reads repo, broker
    {
      repo.Shows(s.sales) && s.logs == broker.logs && s.sales.relay == RelayState([], false)
    }

    /** One cycle: every fetched row is attempted exactly once, in order, a failed publication or marking
        does not hold up the rows after it, and precisely the rows published and marked become SENT.
        The cycle is a run of the protocol from any state with these tables. */
    method ProcessOnce(io: CycleIo, ghost s: State)
      returns (failed: bool, batch: seq<OutboxRow>, ghost acts: seq<Action>, ghost next: State)
      requires Shows(s) && DistinctIds(repo.outbox)
      modifies repo`outbox, broker
      ensures failed <==> !io.fetchOk
      ensures failed ==> batch == []
      ensures !failed ==> IsFetch(old(repo.outbox), batchSize, batch)
      ensures MarkedFirst(old(repo.outbox), repo.outbox, batch, io.rows, |batch|)
      ensures broker.logs == PublishFirst(old(broker.logs), batch, io.rows, |batch|)
      ensures Valid(s, acts) && Exec(s, acts) == next && Shows(next) && next.office == s.office
    {
      acts := [];
      batch, failed := repo.FetchPending(batchSize, io.fetchOk);
      if failed {
        return true, batch, acts, s;
      }
      One(s, RelayFetch(batchSize, batch));
      acts := [RelayFetch(batchSize, batch)];
      for k := 0 to |batch|
        invariant MarkedFirst(old(repo.outbox), repo.outbox, batch, io.rows, k)
        invariant broker.logs == PublishFirst(old(broker.logs), batch, io.rows, k)
        invariant Valid(s, acts)
        invariant Exec(s, acts) == State(s.sales.(outbox := repo.outbox, relay := RelayState(batch[k..], false)),
                                         broker.logs, s.office)
      {
        var ev, row := batch[k], io.rows(k);
        MarkedNext(old(repo.outbox), repo.outbox, batch, io.rows, k);
        ghost var more := RowTrace(Exec(s, acts), row);
        ExecAppend(s, acts, more);
        acts := acts + more;
        assert batch[k..][1..] == batch[k + 1..];
        var message := Message(ev.topic, ev.orderId,
                               [Header("event-type", ev.eventType.Name()), Header("order-id", ev.orderId)], ev.payload);
        var lost := broker.WriteMessages(message, row.number, row.publish);
        if lost {
          continue;
        }
        var unmarked := repo.MarkSent(ev.id, row.mark);
      }
      return false, batch, acts, Exec(s, acts);
    }

    /** One tick of the polling loop continues its run; an error of the cycle is only logged. */
    method OnTick(io: nat -> CycleIo, c: nat, ghost queue: seq<OutboxRow>, ghost published: seq<OutboxRow>,
                  ghost s: State, ghost before: seq<Action>)
      returns (batch: seq<OutboxRow>, ghost acts: seq<Action>)
      requires Valid(s, before) && Shows(Exec(s, before)) && Exec(s, before).office == s.office
      requires DistinctIds(repo.outbox) && Progress(io, c, batchSize, queue, PendingRows(repo.outbox), published)
      modifies repo`outbox, broker
      ensures Valid(s, acts) && Shows(Exec(s, acts)) && Exec(s, acts).office == s.office
      ensures DistinctIds(repo.outbox)
      ensures broker.logs == PublishFirst(old(broker.logs), batch, io(c).rows, |batch|)
      ensures Progress(io, c + 1, batchSize, queue, PendingRows(repo.outbox), published + batch)
    {
      var failed;
      ghost var more, next;
      failed, batch, more, next := ProcessOnce(io(c), Exec(s, before));
      Tick(io, c, batchSize, queue, old(repo.outbox), repo.outbox, published, batch);
      ExecAppend(s, before, more);
      acts := before + more;
    }

    /** The polling loop for a number of ticks, with the batch each of them attempted; what these attempts put
        into the logs, and nothing else, is there at the end. If every cycle succeeds, each takes
        min(batchSize, pending) rows off the queue, so ceil(n / batchSize) ticks empty it (CeilingEmpties),
        and rows are published once (CyclesPost) and by age. */
    method Start(ticks: nat, io: nat -> CycleIo, ghost s: State)
      returns (batches: seq<seq<OutboxRow>>, ghost acts: seq<Action>)
      requires Shows(s) && DistinctIds(repo.outbox)
      modifies repo`outbox, broker
      ensures Valid(s, acts) && Shows(Exec(s, acts)) && Exec(s, acts).office == s.office
      ensures DistinctIds(repo.outbox)
      ensures |batches| == ticks && broker.logs == PublishCycles(old(broker.logs), batches, io)
      ensures Progress(io, ticks, batchSize, old(PendingRows(repo.outbox)), PendingRows(repo.outbox), Concat(batches))
    {
      acts, batches := [], [];
      ghost var queue := PendingRows(repo.outbox);
      NoProgress(io, batchSize, queue);
      for c := 0 to ticks
        invariant Valid(s, acts) && Shows(Exec(s, acts)) && Exec(s, acts).office == s.office
        invariant DistinctIds(repo.outbox)
        invariant |batches| == c && broker.logs == PublishCycles(old(broker.logs), batches, io)
        invariant Progress(io, c, batchSize, queue, PendingRows(repo.outbox), Concat(batches))
      {
        var batch;
        batch, acts := OnTick(io, c, queue, Concat(batches), s, acts);
        CyclesNext(old(broker.logs), batches, batch, io);
        batches := batches + [batch];
      }
    }
  }

  function Concat(batches: seq<seq<OutboxRow>>): seq<OutboxRow> {
    if batches == [] then [] else Concat(batches[..|batches| - 1]) + batches[|batches| - 1]
  }

  /** The logs after cycle upon cycle. */
  function PublishCycles(logs: Logs, batches: seq<seq<OutboxRow>>, io: nat -> CycleIo): Logs {
    if batches == [] then logs
    else
      var n := |batches| - 1;
      PublishFirst(PublishCycles(logs, batches[..n], io), batches[n], io(n).rows, |batches[n]|)
  }

  lemma CyclesNext(logs: Logs, batches: seq<seq<OutboxRow>>, batch: seq<OutboxRow>, io: nat -> CycleIo)
    ensures Concat(batches + [batch]) == Concat(batches) + batch
    ensures PublishCycles(logs, batches + [batch], io)
            == PublishFirst(PublishCycles(logs, batches, io), batch, io(|batches|).rows, |batch|)
  {
    assert (batches + [batch])[..|batches|] == batches;
  }

  /** One append to a log, and the row it comes from. */
  datatype Posting = Posting(row: OutboxRow, at: Partition)

  function Post(logs: Logs, postings: seq<Posting>): Logs {
    if postings == [] then logs
    else
      var n := |postings| - 1;
      Append(Post(logs, postings[..n]), postings[n].at, MessageOf(postings[n].row))
  }

  function RowsOf(postings: seq<Posting>): seq<OutboxRow> {
    seq(|postings|, i requires 0 <= i < |postings| => postings[i].row)
  }

  /** The postings of the first n rows of a batch, all acknowledged. */
  function BatchPostings(batch: seq<OutboxRow>, io: nat -> RowIo, n: nat): seq<Posting>
    requires n <= |batch|
  {
    seq(n, i requires 0 <= i < n => Posting(batch[i], Partition(batch[i].topic, io(i).number)))
  }

  lemma {:induction false} PostAppend(logs: Logs, a: seq<Posting>, b: seq<Posting>)
    ensures Post(logs, a + b) == Post(Post(logs, a), b)
    ensures RowsOf(a + b) == RowsOf(a) + RowsOf(b)
  {
    if b == [] {
      assert a + b == a;
    } else {
      var n := |b| - 1;
      PostAppend(logs, a, b[..n]);
      assert (a + b)[..|a| + n] == a + b[..n];
    }
  }

  lemma {:induction false} BatchPosts(logs: Logs, batch: seq<OutboxRow>, io: nat -> RowIo, n: nat)
    requires n <= |batch| && forall k: nat :: io(k).publish.Acked?
    ensures PublishFirst(logs, batch, io, n) == Post(logs, BatchPostings(batch, io, n))
    ensures RowsOf(BatchPostings(batch, io, n)) == batch[..n]
  {
    if n > 0 {
      BatchPosts(logs, batch, io, n - 1);
      assert BatchPostings(batch, io, n)[..n - 1] == BatchPostings(batch, io, n - 1);
    }
  }

  /** The messages of the postings to one partition, in order. */
  function PostedTo(postings: seq<Posting>, at: Partition): seq<Message> {
    if postings == [] then []
    else
      var last := postings[|postings| - 1];
      PostedTo(postings[..|postings| - 1], at) + if last.at == at then [MessageOf(last.row)] else []
  }

  lemma {:induction false} PostGrows(logs: Logs, postings: seq<Posting>, at: Partition)
    ensures Log(Post(logs, postings), at) == Log(logs, at) + PostedTo(postings, at)
  {
    if postings != [] {
      PostGrows(logs, postings[..|postings| - 1], at);
    }
  }

  /** Through good cycles there is one posting for each row of the batches, in order and to a partition of its
      topic, and every log grows by exactly the messages of the postings to it. */
  lemma CyclesPost(logs: Logs, batches: seq<seq<OutboxRow>>, io: nat -> CycleIo)
    returns (postings: seq<Posting>)
    requires GoodUntil(io, |batches|)
    ensures PublishCycles(logs, batches, io) == Post(logs, postings) && RowsOf(postings) == Concat(batches)
    ensures forall i :: 0 <= i < |postings| ==> postings[i].at.topic == postings[i].row.topic
    ensures forall at :: Log(PublishCycles(logs, batches, io), at) == Log(logs, at) + PostedTo(postings, at)
  {
    postings := CyclePostings(logs, batches, io);
    forall at ensures Log(Post(logs, postings), at) == Log(logs, at) + PostedTo(postings, at) {
      PostGrows(logs, postings, at);
    }
  }

  lemma {:induction false} CyclePostings(logs: Logs, batches: seq<seq<OutboxRow>>, io: nat -> CycleIo)
    returns (postings: seq<Posting>)
    requires GoodUntil(io, |batches|)
    ensures PublishCycles(logs, batches, io) == Post(logs, postings) && RowsOf(postings) == Concat(batches)
    ensures forall i :: 0 <= i < |postings| ==> postings[i].at.topic == postings[i].row.topic
  {
    postings := [];
    if batches != [] {
      var n := |batches| - 1;
      GoodStep(io, n);
      var before := CyclePostings(logs, batches[..n], io);
      var batch := batches[n];
      var more := BatchPostings(batch, io(n).rows, |batch|);
      BatchPosts(Post(logs, before), batch, io(n).rows, |batch|);
      PostAppend(logs, before, more);
      assert batch[..|batch|] == batch;
      postings := before + more;
    }
  }

  lemma NoProgress(io: nat -> CycleIo, limit: nat, queue: seq<OutboxRow>)
    ensures Progress(io, 0, limit, queue, queue, [])
  {
    SplitNone(queue);
  }

  ghost predicate GoodUntil(io: nat -> CycleIo, n: nat) {
    forall c: nat :: c < n ==> AllGood(io(c))
  }

  lemma GoodStep(io: nat -> CycleIo, c: nat)
    requires GoodUntil(io, c + 1)
    ensures GoodUntil(io, c) && AllGood(io(c))
  {
  }

  lemma Tick(io: nat -> CycleIo, c: nat, limit: nat, queue: seq<OutboxRow>,
             outbox: seq<OutboxRow>, outbox': seq<OutboxRow>, published: seq<OutboxRow>, batch: seq<OutboxRow>)
    requires DistinctIds(outbox) && MarkedFirst(outbox, outbox', batch, io(c).rows, |batch|)
    requires io(c).fetchOk ==> IsFetch(outbox, limit, batch)
    requires Progress(io, c, limit, queue, PendingRows(outbox), published)
    ensures DistinctIds(outbox') && Progress(io, c + 1, limit, queue, PendingRows(outbox'), published + batch)
  {
    MarkedUnique(outbox, outbox', batch, io(c).rows, |batch|);
    if GoodUntil(io, c + 1) {
      GoodStep(io, c);
      GoodTick(io(c), limit, queue, outbox, outbox', published, batch, Capacity(c, limit));
    }
  }

  lemma GoodTick(c: CycleIo, limit: nat, queue: seq<OutboxRow>, outbox: seq<OutboxRow>, outbox': seq<OutboxRow>,
                 published: seq<OutboxRow>, batch: seq<OutboxRow>, n: nat)
    requires DistinctIds(outbox) && MarkedFirst(outbox, outbox', batch, c.rows, |batch|)
    requires AllGood(c) && IsFetch(outbox, limit, batch) && Drained(queue, PendingRows(outbox), published, n)
    ensures Drained(queue, PendingRows(outbox'), published + batch, n + limit)
  {
    CycleTakes(outbox, outbox', limit, batch, c);
    DrainedNext(queue, PendingRows(outbox), PendingRows(outbox'), published, n, limit, batch);
  }

  /** As long as every cycle succeeds, each sends min(limit, pending) rows. */
  ghost predicate Progress(io: nat -> CycleIo, cycles: nat, limit: nat, queue: seq<OutboxRow>,
                           pending: seq<OutboxRow>, published: seq<OutboxRow>)
  {
    GoodUntil(io, cycles) ==> Drained(queue, pending, published, Capacity(cycles, limit))
  }

  /** How many rows so many cycles can send. */
  function Capacity(cycles: nat, limit: nat): nat {
    if cycles == 0 then 0 else Capacity(cycles - 1, limit) + limit
  }

  lemma {:induction false} CapacityProduct(cycles: nat, limit: nat)
    ensures Capacity(cycles, limit) == cycles * limit
  {
    if cycles > 0 {
      CapacityProduct(cycles - 1, limit);
    }
  }

  /** ceil(n / limit) successful cycles empty a queue of n rows: each of them is attempted exactly once, by
      age, and in queue order when creation times increase. Progress is Drained after so many cycles. */
  lemma CeilingEmpties(cycles: nat, limit: nat, queue: seq<OutboxRow>,
                       pending: seq<OutboxRow>, published: seq<OutboxRow>)
    requires limit > 0 && cycles == (|queue| + limit - 1) / limit
    requires Drained(queue, pending, published, Capacity(cycles, limit))
    ensures pending == [] && multiset(published) == multiset(queue) && Sorted(published)
    ensures Increasing(queue) ==> published == queue
  {
    EnoughCycles(|queue|, limit);
    DrainedAll(queue, pending, published, Capacity(cycles, limit));
  }

  lemma EnoughCycles(n: nat, limit: nat)
    requires limit > 0
    ensures Capacity((n + limit - 1) / limit, limit) >= n
  {
    var m := n + limit - 1;
    CapacityProduct(m / limit, limit);
    assert m == limit * (m / limit) + m % limit;
  }

  lemma DrainedAll(queue: seq<OutboxRow>, pending: seq<OutboxRow>, published: seq<OutboxRow>, n: nat)
    requires Drained(queue, pending, published, n) && n >= |queue|
    ensures pending == [] && multiset(published) == multiset(queue) && Sorted(published)
    ensures Increasing(queue) ==> published == queue
  {
    assert pending == [];
    SplitAll(queue, published);
    assert queue[..|queue|] == queue;
  }

  lemma MarkedUnique(outbox: seq<OutboxRow>, outbox': seq<OutboxRow>, batch: seq<OutboxRow>, io: nat -> RowIo, n: nat)
    requires n <= |batch| && DistinctIds(outbox) && MarkedFirst(outbox, outbox', batch, io, n)
    ensures DistinctIds(outbox')
  {
    forall i | 0 <= i < |outbox| ensures outbox'[i].id == outbox[i].id {
    }
  }

  /** How often a row occurs. */
  function Occurs(rows: seq<OutboxRow>, r: OutboxRow): nat {
    if rows == [] then 0 else Occurs(rows[..|rows| - 1], r) + if rows[|rows| - 1] == r then 1 else 0
  }

  lemma {:induction false} OccursAppend(a: seq<OutboxRow>, b: seq<OutboxRow>, r: OutboxRow)
    ensures Occurs(a + b, r) == Occurs(a, r) + Occurs(b, r)
  {
    if b == [] {
      assert a + b == a;
    } else {
      OccursAppend(a, b[..|b| - 1], r);
      assert (a + b)[..|a + b| - 1] == a + b[..|b| - 1];
    }
  }

  lemma {:induction false} OccursMultiset(rows: seq<OutboxRow>, r: OutboxRow)
    ensures Occurs(rows, r) == multiset(rows)[r] && (r in rows <==> Occurs(rows, r) > 0)
  {
    if rows != [] {
      OccursMultiset(rows[..|rows| - 1], r);
      assert rows == rows[..|rows| - 1] + [rows[|rows| - 1]];
    }
  }

  /** Row for row, the two parts make up the whole. */
  ghost predicate Split(whole: seq<OutboxRow>, a: seq<OutboxRow>, b: seq<OutboxRow>) {
    forall r :: Occurs(a, r) + Occurs(b, r) == Occurs(whole, r)
  }

  /** Parts of a part are parts of the whole. */
  lemma SplitAgain(whole: seq<OutboxRow>, a: seq<OutboxRow>, b: seq<OutboxRow>, c: seq<OutboxRow>, d: seq<OutboxRow>)
    requires Split(whole, a, b) && Split(b, c, d)
    ensures Split(whole, a + c, d)
  {
    forall r ensures Occurs(a + c, r) + Occurs(d, r) == Occurs(whole, r) {
      OccursAppend(a, c, r);
      assert Occurs(b, r) == Occurs(c, r) + Occurs(d, r);
    }
  }

  /** Taking one row out splits it off. */
  lemma SplitOne(rows: seq<OutboxRow>, k: nat)
    requires k < |rows|
    ensures Split(rows, [rows[k]], rows[..k] + rows[k + 1..])
  {
    assert rows == rows[..k] + ([rows[k]] + rows[k + 1..]);
    forall r ensures Occurs([rows[k]], r) + Occurs(rows[..k] + rows[k + 1..], r) == Occurs(rows, r) {
      OccursAppend(rows[..k], [rows[k]] + rows[k + 1..], r);
      OccursAppend([rows[k]], rows[k + 1..], r);
      OccursAppend(rows[..k], rows[k + 1..], r);
    }
  }

  lemma SplitNone(rows: seq<OutboxRow>)
    ensures Split(rows, [], rows)
  {
  }

  /** With nothing left over, the part is the whole. */
  lemma SplitAll(whole: seq<OutboxRow>, a: seq<OutboxRow>)
    requires Split(whole, a, [])
    ensures multiset(a) == multiset(whole)
  {
    forall r: OutboxRow ensures multiset(a)[r] == multiset(whole)[r] {
      OccursMultiset(a, r);
      OccursMultiset(whole, r);
      assert Occurs(a, r) + Occurs([], r) == Occurs(whole, r);
    }
  }

  lemma SplitMember(whole: seq<OutboxRow>, a: seq<OutboxRow>, b: seq<OutboxRow>, row: OutboxRow)
    requires Split(whole, a, b) && row in a
    ensures row in whole
  {
    OccursMultiset(a, row);
    OccursMultiset(whole, row);
    assert Occurs(a, row) + Occurs(b, row) == Occurs(whole, row);
  }

  /** The rows sent are in order of creation, no two of them the same, and none is younger than one left. */
  ghost predicate ByAge(sent: seq<OutboxRow>, left: seq<OutboxRow>) {
    && Sorted(sent) && DistinctIds(sent)
    && forall a, b :: a in sent && b in left ==> a.createdAt <= b.createdAt && a.id != b.id
  }

  lemma ByAgeNext(sent: seq<OutboxRow>, left: seq<OutboxRow>, batch: seq<OutboxRow>, left': seq<OutboxRow>)
    requires ByAge(sent, left) && ByAge(batch, left')
    requires Within(batch, left) && Within(left', left)
    ensures ByAge(sent + batch, left')
  {
    var all := sent + batch;
    forall i, j | 0 <= i < j < |all| ensures all[i].createdAt <= all[j].createdAt && all[i].id != all[j].id {
      if i < |sent| <= j {
        assert sent[i] in sent && batch[j - |sent|] in batch;
      }
    }
  }

  /** The queue after up to n of its rows were sent, and what was published to get there: between them they
      are the queue, row for row, and the oldest went first. */
  ghost predicate Drained(queue: seq<OutboxRow>, pending: seq<OutboxRow>, published: seq<OutboxRow>, n: nat) {
    var sent := Min(|queue|, n);
    && |pending| == |queue| - sent && Split(queue, published, pending) && ByAge(published, pending)
    && (Increasing(queue) ==> published == queue[..sent] && pending == queue[sent..])
  }

  /** The outbox after one row of the batch. */
  function MarkOne(outbox: seq<OutboxRow>, row: OutboxRow, io: RowIo): seq<OutboxRow> {
    if io.publish.Acked? && io.mark.Effective() then MarkSent(outbox, row.id) else outbox
  }

  lemma MarkedNext(outbox: seq<OutboxRow>, outbox': seq<OutboxRow>, batch: seq<OutboxRow>, io: nat -> RowIo, k: nat)
    requires k < |batch| && MarkedFirst(outbox, outbox', batch, io, k)
    ensures MarkedFirst(outbox, MarkOne(outbox', batch[k], io(k)), batch, io, k + 1)
  {
    forall id
      ensures MarkedAmong(batch, io, k + 1, id)
              <==> MarkedAmong(batch, io, k, id)
                   || (batch[k].id == id && io(k).publish.Acked? && io(k).mark.Effective())
    {
    }
  }

  /** The protocol's view of one row: a publication, and a marking if it was acknowledged. */
  lemma RowTrace(s: State, io: RowIo) returns (acts: seq<Action>)
    requires s.sales.relay.batch != [] && !s.sales.relay.published
    ensures Valid(s, acts)
    ensures
      var batch := s.sales.relay.batch;
      Exec(s, acts) == State(
        s.sales.(outbox := MarkOne(s.sales.outbox, batch[0], io), relay := RelayState(batch[1..], false)),
        if io.publish.Effective() then Append(s.logs, Partition(batch[0].topic, io.number), MessageOf(batch[0]))
        else s.logs,
        s.office)
  {
    var publish := RelayPublish(io.number, io.publish);
    if io.publish.Acked? {
      Two(s, publish, RelayMark(io.mark));
      acts := [publish, RelayMark(io.mark)];
    } else {
      One(s, publish);
      acts := [publish];
    }
  }

  // ----- What a cycle achieves -----

  function Without(rows: seq<OutboxRow>, id: string): seq<OutboxRow> {
    if rows == [] then []
    else
      var last := rows[|rows| - 1];
      Without(rows[..|rows| - 1], id) + if last.id == id then [] else [last]
  }

  /** Marking a row takes it out of the queue and moves nothing else. */
  lemma {:induction false} MarkedQueue(outbox: seq<OutboxRow>, id: string)
    ensures PendingRows(MarkSent(outbox, id)) == Without(PendingRows(outbox), id)
  {
    if outbox != [] {
      var n := |outbox| - 1;
      MarkedQueue(outbox[..n], id);
      assert MarkSent(outbox, id)[..n] == MarkSent(outbox[..n], id);
      var pending := PendingRows(outbox[..n]);
      if outbox[n].status == RowPending {
        assert (pending + [outbox[n]])[..|pending|] == pending;
      } else {
        assert PendingRows(outbox) == pending;
      }
    }
  }

  lemma {:induction false} WithoutOne(rows: seq<OutboxRow>, k: nat)
    requires k < |rows| && DistinctIds(rows)
    ensures Without(rows, rows[k].id) == rows[..k] + rows[k + 1..]
  {
    var n := |rows| - 1;
    if k == n {
      WithoutNone(rows[..n], rows[n].id);
    } else {
      WithoutOne(rows[..n], k);
      assert rows[..n][..k] + rows[..n][k + 1..] + [rows[n]] == rows[..k] + rows[k + 1..];
    }
  }

  lemma {:induction false} WithoutNone(rows: seq<OutboxRow>, id: string)
    requires forall i :: 0 <= i < |rows| ==> rows[i].id != id
    ensures Without(rows, id) == rows
  {
    if rows != [] {
      WithoutNone(rows[..|rows| - 1], id);
    }
  }

  ghost predicate AllGood(c: CycleIo) {
    c.fetchOk && forall k: nat :: c.rows(k).publish.Acked? && c.rows(k).mark.Effective()
  }

  function MarkAll(outbox: seq<OutboxRow>, batch: seq<OutboxRow>, n: nat): seq<OutboxRow>
    requires n <= |batch|
  {
    if n == 0 then outbox else MarkSent(MarkAll(outbox, batch, n - 1), batch[n - 1].id)
  }

  lemma {:induction false} AllMarked(outbox: seq<OutboxRow>, batch: seq<OutboxRow>, c: CycleIo, n: nat)
    requires n <= |batch| && AllGood(c)
    ensures MarkedFirst(outbox, MarkAll(outbox, batch, n), batch, c.rows, n)
  {
    if n > 0 {
      AllMarked(outbox, batch, c, n - 1);
      MarkedNext(outbox, MarkAll(outbox, batch, n - 1), batch, c.rows, n - 1);
    }
  }

  /** The queue without the first n rows of a batch. */
  function Drop(queue: seq<OutboxRow>, batch: seq<OutboxRow>, n: nat): seq<OutboxRow>
    requires n <= |batch|
  {
    if n == 0 then queue else Without(Drop(queue, batch, n - 1), batch[n - 1].id)
  }

  /** Marking rows drops them from the queue. */
  lemma {:induction false} MarkAllDrops(outbox: seq<OutboxRow>, batch: seq<OutboxRow>, n: nat)
    requires n <= |batch|
    ensures PendingRows(MarkAll(outbox, batch, n)) == Drop(PendingRows(outbox), batch, n)
  {
    if n > 0 {
      MarkAllDrops(outbox, batch, n - 1);
      MarkedQueue(MarkAll(outbox, batch, n - 1), batch[n - 1].id);
    }
  }

  ghost predicate Within(batch: seq<OutboxRow>, queue: seq<OutboxRow>) {
    forall b :: b in batch ==> b in queue
  }

  /** Dropping the first n rows of a batch shortens the queue by n and leaves the rest of the batch in it. */
  lemma {:induction false} QueueShrinks(queue: seq<OutboxRow>, batch: seq<OutboxRow>, n: nat)
    requires DistinctIds(queue) && n <= |batch| && DistinctIds(batch) && Within(batch, queue)
    ensures var rest := Drop(queue, batch, n);
            && |rest| == |queue| - n && DistinctIds(rest)
            && forall k :: n <= k < |batch| ==> batch[k] in rest
  {
    if n > 0 {
      QueueShrinks(queue, batch, n - 1);
      StillQueued(Drop(queue, batch, n - 1), batch, n);
    }
  }

  /** What it takes out of the queue is the first n rows of the batch, and nothing else. */
  lemma {:induction false} QueueSplits(queue: seq<OutboxRow>, batch: seq<OutboxRow>, n: nat)
    requires DistinctIds(queue) && n <= |batch| && DistinctIds(batch) && Within(batch, queue)
    ensures Split(queue, batch[..n], Drop(queue, batch, n))
  {
    if n == 0 {
      SplitNone(queue);
    } else {
      QueueSplits(queue, batch, n - 1);
      NextQueued(queue, batch, n);
      SplitNext(queue, batch, n, Drop(queue, batch, n - 1), Drop(queue, batch, n));
    }
  }

  lemma NextQueued(queue: seq<OutboxRow>, batch: seq<OutboxRow>, n: nat)
    requires DistinctIds(queue) && 1 <= n <= |batch| && DistinctIds(batch) && Within(batch, queue)
    ensures DistinctIds(Drop(queue, batch, n - 1)) && batch[n - 1] in Drop(queue, batch, n - 1)
  {
    QueueShrinks(queue, batch, n - 1);
  }

  lemma {:induction false} WithoutMember(rows: seq<OutboxRow>, id: string, row: OutboxRow)
    requires row in Without(rows, id)
    ensures row in rows && row.id != id
  {
    var n := |rows| - 1;
    if row in Without(rows[..n], id) {
      WithoutMember(rows[..n], id, row);
    }
  }

  lemma {:induction false} LeftInQueue(queue: seq<OutboxRow>, batch: seq<OutboxRow>, n: nat, row: OutboxRow)
    requires n <= |batch| && row in Drop(queue, batch, n)
    ensures row in queue
  {
    if n > 0 {
      WithoutMember(Drop(queue, batch, n - 1), batch[n - 1].id, row);
      LeftInQueue(queue, batch, n - 1, row);
    }
  }

  lemma {:induction false} NotInBatch(queue: seq<OutboxRow>, batch: seq<OutboxRow>, n: nat, row: OutboxRow, k: nat)
    requires k < n <= |batch| && row in Drop(queue, batch, n)
    ensures row.id != batch[k].id
  {
    WithoutMember(Drop(queue, batch, n - 1), batch[n - 1].id, row);
    if k < n - 1 {
      NotInBatch(queue, batch, n - 1, row, k);
    }
  }

  /** A batch of oldest rows is older than what dropping it leaves. */
  lemma BatchByAge(queue: seq<OutboxRow>, batch: seq<OutboxRow>)
    requires Sorted(batch) && Oldest(queue, batch)
    ensures var left := Drop(queue, batch, |batch|);
            ByAge(batch, left) && Within(left, queue)
  {
    forall b, r | b in batch && r in Drop(queue, batch, |batch|)
      ensures b.createdAt <= r.createdAt && b.id != r.id
    {
      LeftInQueue(queue, batch, |batch|, r);
      forall k | 0 <= k < |batch| ensures r.id != batch[k].id {
        NotInBatch(queue, batch, |batch|, r, k);
      }
    }
    forall r | r in Drop(queue, batch, |batch|) ensures r in queue {
      LeftInQueue(queue, batch, |batch|, r);
    }
  }

  lemma SplitNext(whole: seq<OutboxRow>, batch: seq<OutboxRow>, n: nat, queue: seq<OutboxRow>, rest: seq<OutboxRow>)
    requires 1 <= n <= |batch| && Split(whole, batch[..n - 1], queue)
    requires DistinctIds(queue) && batch[n - 1] in queue && rest == Without(queue, batch[n - 1].id)
    ensures Split(whole, batch[..n], rest)
  {
    SplitRow(queue, batch[n - 1]);
    SplitAgain(whole, batch[..n - 1], queue, [batch[n - 1]], rest);
    assert batch[..n - 1] + [batch[n - 1]] == batch[..n];
  }

  lemma SplitRow(queue: seq<OutboxRow>, row: OutboxRow)
    requires DistinctIds(queue) && row in queue
    ensures Split(queue, [row], Without(queue, row.id))
  {
    var j :| 0 <= j < |queue| && queue[j] == row;
    WithoutOne(queue, j);
    SplitOne(queue, j);
  }

  lemma StillQueued(queue: seq<OutboxRow>, batch: seq<OutboxRow>, n: nat)
    requires 1 <= n <= |batch| && DistinctIds(queue) && DistinctIds(batch)
    requires forall k :: n - 1 <= k < |batch| ==> batch[k] in queue
    ensures var rest := Without(queue, batch[n - 1].id);
            && |rest| == |queue| - 1 && DistinctIds(rest)
            && forall k :: n <= k < |batch| ==> batch[k] in rest
  {
    assert batch[n - 1] in queue;
    var j :| 0 <= j < |queue| && queue[j] == batch[n - 1];
    WithoutOne(queue, j);
    var rest := queue[..j] + queue[j + 1..];
    forall k | n <= k < |batch| ensures batch[k] in rest {
      var i :| 0 <= i < |queue| && queue[i] == batch[k];
      assert i != j;
      assert if i < j then rest[i] == batch[k] else rest[i - 1] == batch[k];
    }
  }

  predicate Increasing(rows: seq<OutboxRow>) {
    forall i, j :: 0 <= i < j < |rows| ==> rows[i].createdAt < rows[j].createdAt
  }

  /** With increasing creation times the fetched batch is the front of the queue. */
  lemma {:induction false} FrontOfQueue(queue: seq<OutboxRow>, batch: seq<OutboxRow>)
    requires Increasing(queue) && Sorted(batch) && Oldest(queue, batch)
    ensures |batch| <= |queue| && batch == queue[..|batch|]
  {
    if batch != [] {
      FirstOfQueue(queue, batch);
      OldestRest(queue, batch);
      IncreasingTail(queue, 1);
      SortedTail(batch);
      FrontOfQueue(queue[1..], batch[1..]);
      FrontTail(queue, batch);
    }
  }

  lemma SortedTail(batch: seq<OutboxRow>)
    requires Sorted(batch) && batch != []
    ensures Sorted(batch[1..])
  {
  }

  lemma FrontTail(queue: seq<OutboxRow>, batch: seq<OutboxRow>)
    requires queue != [] && batch != [] && batch[0] == queue[0]
    requires |batch[1..]| <= |queue[1..]| && batch[1..] == queue[1..][..|batch[1..]|]
    ensures |batch| <= |queue| && batch == queue[..|batch|]
  {
    assert batch == [batch[0]] + batch[1..];
    assert queue[..|batch|] == [queue[0]] + queue[1..][..|batch| - 1];
  }

  lemma OldestRest(queue: seq<OutboxRow>, batch: seq<OutboxRow>)
    requires Increasing(queue) && Oldest(queue, batch) && batch != [] && queue != [] && batch[0] == queue[0]
    ensures Oldest(queue[1..], batch[1..])
  {
    assert queue == [queue[0]] + queue[1..] && batch == [batch[0]] + batch[1..];
    forall b | b in batch[1..] ensures b in queue[1..] {
      assert b in batch && b.id != batch[0].id;
    }
    forall r | r in queue[1..] ensures r in queue && r != batch[0] {
      assert r.createdAt > queue[0].createdAt;
    }
  }

  lemma FirstOfQueue(queue: seq<OutboxRow>, batch: seq<OutboxRow>)
    requires Increasing(queue) && Sorted(batch) && Oldest(queue, batch) && batch != []
    ensures queue != [] && batch[0] == queue[0]
  {
    assert batch[0] in batch && batch[0] in queue && queue[0] in queue;
    var i :| 0 <= i < |queue| && queue[i] == batch[0];
    if queue[0] in batch {
      var j :| 0 <= j < |batch| && batch[j] == queue[0];
      assert batch[0].createdAt <= queue[0].createdAt;
    }
  }

  /** ... and what is left after a good cycle is the queue without its front. */
  lemma {:induction false} QueueFront(queue: seq<OutboxRow>, batch: seq<OutboxRow>, n: nat)
    requires DistinctIds(queue) && n <= |batch| <= |queue| && batch == queue[..|batch|]
    ensures Drop(queue, batch, n) == queue[n..]
  {
    if n > 0 {
      QueueFront(queue, batch, n - 1);
      DropHead(queue, n - 1);
    }
  }

  lemma DropHead(queue: seq<OutboxRow>, n: nat)
    requires n < |queue| && DistinctIds(queue)
    ensures Without(queue[n..], queue[n].id) == queue[n + 1..]
  {
    var rest := queue[n..];
    assert DistinctIds(rest) && rest[0] == queue[n];
    WithoutOne(rest, 0);
    assert rest[..0] + rest[1..] == queue[n + 1..];
  }

  /** A cycle in which everything succeeds takes min(limit, pending) rows off the queue, the batch and no
      others: the oldest, and the front of the queue when creation times increase. */
  ghost predicate Takes(pending: seq<OutboxRow>, pending': seq<OutboxRow>, limit: nat, batch: seq<OutboxRow>) {
    var n := Min(limit, |pending|);
    && |batch| == n && |pending'| == |pending| - n && Split(pending, batch, pending') && ByAge(batch, pending')
    && Within(batch, pending) && Within(pending', pending)
    && (Increasing(pending) ==> batch == pending[..n] && pending' == pending[n..])
  }

  lemma CycleTakes(outbox: seq<OutboxRow>, outbox': seq<OutboxRow>, limit: nat, batch: seq<OutboxRow>, c: CycleIo)
    requires DistinctIds(outbox) && IsFetch(outbox, limit, batch) && AllGood(c)
    requires MarkedFirst(outbox, outbox', batch, c.rows, |batch|)
    ensures Takes(PendingRows(outbox), PendingRows(outbox'), limit, batch)
  {
    var queue := PendingRows(outbox);
    QueueDistinct(outbox);
    MarkedAll(outbox, outbox', batch, c);
    MarkAllDrops(outbox, batch, |batch|);
    DropTakes(queue, batch, limit);
  }

  lemma DropTakes(queue: seq<OutboxRow>, batch: seq<OutboxRow>, limit: nat)
    requires DistinctIds(queue) && |batch| == Min(limit, |queue|) && Sorted(batch) && Oldest(queue, batch)
    ensures Takes(queue, Drop(queue, batch, |batch|), limit, batch)
  {
    QueueShrinks(queue, batch, |batch|);
    QueueSplits(queue, batch, |batch|);
    BatchByAge(queue, batch);
    assert batch[..|batch|] == batch;
    if Increasing(queue) {
      FrontOfQueue(queue, batch);
      QueueFront(queue, batch, |batch|);
    }
  }

  lemma MarkedAll(outbox: seq<OutboxRow>, outbox': seq<OutboxRow>, batch: seq<OutboxRow>, c: CycleIo)
    requires AllGood(c) && MarkedFirst(outbox, outbox', batch, c.rows, |batch|)
    ensures outbox' == MarkAll(outbox, batch, |batch|)
  {
    AllMarked(outbox, batch, c, |batch|);
  }

  lemma DrainedNext(queue: seq<OutboxRow>, pending: seq<OutboxRow>, pending': seq<OutboxRow>, published: seq<OutboxRow>,
                    n: nat, limit: nat, batch: seq<OutboxRow>)
    requires Drained(queue, pending, published, n) && Takes(pending, pending', limit, batch)
    ensures Drained(queue, pending', published + batch, n + limit)
  {
    SplitAgain(queue, published, pending, batch, pending');
    ByAgeNext(published, pending, batch, pending');
    if Increasing(queue) {
      var sent := Min(|queue|, n);
      IncreasingTail(queue, sent);
      Slices(queue, sent, |batch|);
    }
  }

  lemma IncreasingTail(queue: seq<OutboxRow>, n: nat)
    requires Increasing(queue) && n <= |queue|
    ensures Increasing(queue[n..])
  {
    forall i, j | 0 <= i < j < |queue[n..]| ensures queue[n..][i].createdAt < queue[n..][j].createdAt {
      assert queue[n..][i] == queue[n + i] && queue[n..][j] == queue[n + j];
    }
  }

  lemma Slices(queue: seq<OutboxRow>, n: nat, k: nat)
    requires n + k <= |queue|
    ensures queue[..n] + queue[n..][..k] == queue[..n + k] && queue[n..][k..] == queue[n + k..]
  {
  }

  /** After any cycle, whatever failed: a fetched row is still PENDING exactly when its own publication
      or marking failed, and a row that was not fetched keeps its status. No row goes back from SENT. */
  lemma StillPending(outbox: seq<OutboxRow>, outbox': seq<OutboxRow>, limit: nat, batch: seq<OutboxRow>,
                     io: nat -> RowIo, i: nat)
    requires DistinctIds(outbox) && IsFetch(outbox, limit, batch) && MarkedFirst(outbox, outbox', batch, io, |batch|)
    requires i < |outbox|
    ensures forall k :: 0 <= k < |batch| && batch[k].id == outbox[i].id ==>
              batch[k] == outbox[i] && outbox[i].status == RowPending
              && (outbox'[i].status == RowPending <==> !(io(k).publish.Acked? && io(k).mark.Effective()))
    ensures outbox[i] !in batch ==> outbox'[i] == outbox[i]
    ensures outbox[i].status == RowSent ==> outbox'[i] == outbox[i]
  {
    forall k | 0 <= k < |batch| && batch[k].id == outbox[i].id
      ensures batch[k] == outbox[i] && outbox[i].status == RowPending
    {
      assert batch[k] in batch;
      FetchedRow(outbox, limit, batch, batch[k]);
      var j :| 0 <= j < |outbox| && outbox[j] == batch[k];
    }
  }
}

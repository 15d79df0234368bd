/**
 The write-behind worker (server/src/worker/order-worker.ts) over its consumer
 group (server/src/adapters/redis/order-queue.ts): pending entries first, write,
 ack only after the write, exponential backoff on any failure.
 */
module OrderWorker {
  import opened Ids
  import opened AuditStore
  import opened BulkAudit
  import opened AuditDb

  const INITIAL_BACKOFF_MS: nat := 500
  const MAX_BACKOFF_MS: nat := 30_000

  datatype Message = Message(streamId: nat, payload: Payload)

  /** How the stores answer during one iteration. A failed read or ack may still
      have run on the server; a failed write applied the upserts of its cut, or
      none if the cut does not belong to the batch; a write that succeeded applied
      all upserts in the order given, or in payload order if that is none. */
  datatype Outcome =
    | Fine(order: Cut)
    | ReadFails(ran: bool)
    | WriteFails(cut: Cut)
    | AckFails(order: Cut, ran: bool)

  /** The loop's world: own pending entries and the undelivered ones, in stream
      order; what was acked; failures since the last good write; every sleep. */
  datatype Loop = Loop(
    pending: seq<Message>,
    unread: seq<Message>,
    acked: seq<Message>,
    failures: nat,
    sleeps: seq<nat>)

  function First<T>(s: seq<T>, n: nat): seq<T> {
    if |s| <= n then s else s[..n]
  }

  function Rest<T>(s: seq<T>, n: nat): seq<T> {
    if |s| <= n then [] else s[n..]
  }

  function Min(a: int, b: int): int {
    if a <= b then a else b
  }

  /** Sleep of the k-th failure in a row, counting from 0, as the loop doubles it. */
  function Backoff(k: nat): nat {
    if k == 0 then INITIAL_BACKOFF_MS else Min(Backoff(k - 1) * 2, MAX_BACKOFF_MS)
  }

  function Fail(w: Loop): Loop {
    w.(failures := w.failures + 1, sleeps := w.sleeps + [Backoff(w.failures)])
  }

  /** A read that ran: own pending entries as they are, else up to `n` new ones
      become pending. */
  function Claim(w: Loop, n: nat): Loop {
    if w.pending != [] then w else w.(pending := First(w.unread, n), unread := Rest(w.unread, n))
  }

  function Acked(w: Loop, n: nat): Loop {
    w.(pending := Rest(w.pending, n), acked := w.acked + First(w.pending, n))
  }

  function Iterate(w: Loop, n: nat, o: Outcome): Loop {
    if o.ReadFails? then Fail(if o.ran then Claim(w, n) else w)
    else
      var c := Claim(w, n);
      if c.pending == [] then w else Finish(c, n, o)
  }

  /** The batch `First(w.pending, n)` is written and acked, or not. */
  function Finish(w: Loop, n: nat, o: Outcome): Loop {
    match o
    case Fine(_) => Acked(w, n).(failures := 0)
    case AckFails(_, ran) => Fail(if ran then Acked(w, n) else w)
    case _ => Fail(w)
  }

  function IterateAll(w: Loop, n: nat, os: seq<Outcome>): Loop {
    if os == [] then w else Iterate(IterateAll(w, n, os[..|os| - 1]), n, os[|os| - 1])
  }

  function Messages(w: Loop): seq<Message> {
    w.acked + w.pending + w.unread
  }

  function PayloadsOf(ms: seq<Message>): (r: seq<Payload>)
    ensures |r| == |ms| && forall i | 0 <= i < |ms| :: r[i] == ms[i].payload
  {
    seq(|ms|, i requires 0 <= i < |ms| => ms[i].payload)
  }

  function IdsOf(ms: seq<Message>): (r: seq<nat>)
    ensures |r| == |ms| && forall i | 0 <= i < |ms| :: r[i] == ms[i].streamId
  {
    seq(|ms|, i requires 0 <= i < |ms| => ms[i].streamId)
  }

  ghost predicate DistinctIds(ms: seq<Message>) {
    forall i, j {:trigger ms[i].streamId, ms[j].streamId} | 0 <= i < j < |ms| :: ms[i].streamId != ms[j].streamId
  }

  /** No entry is lost, duplicated or reordered by an iteration. */
  lemma {:induction false} IterateKeepsMessages(w: Loop, n: nat, o: Outcome)
    ensures Messages(Iterate(w, n, o)) == Messages(w)
  {
    var c := Claim(w, n);
    assert Messages(c) == Messages(w);
    assert First(c.pending, n) + Rest(c.pending, n) == c.pending;
    assert Messages(Acked(c, n)) == Messages(c);
  }

  lemma {:induction false} IterateAllKeepsMessages(w: Loop, n: nat, os: seq<Outcome>)
    ensures Messages(IterateAll(w, n, os)) == Messages(w)
  {
    if os != [] {
      IterateAllKeepsMessages(w, n, os[..|os| - 1]);
      IterateKeepsMessages(IterateAll(w, n, os[..|os| - 1]), n, os[|os| - 1]);
    }
  }

  /** One consumer's side of the group on `queue:orders`. */
  class ConsumerGroup {
    var pending: seq<Message>
    var unread: seq<Message>
    ghost var acked: seq<Message>

    constructor (pending: seq<Message>, unread: seq<Message>)
      ensures this.pending == pending && this.unread == unread && acked == []
    {
      this.pending, this.unread, acked := pending, unread, [];
    }

    /** XREADGROUP id "0". */
    method ReadPending(count: nat) returns (batch: seq<Message>)
      ensures batch == First(pending, count)
    {
      batch := First(pending, count);
    }

    /** XREADGROUP id ">": the new entries enter this consumer's pending list. */
    method ReadBatch(count: nat) returns (batch: seq<Message>)
      modifies this`pending, this`unread
      ensures batch == First(old(unread), count)
      ensures pending == old(pending) + batch && unread == Rest(old(unread), count)
    {
      batch := First(unread, count);
      pending, unread := pending + batch, Rest(unread, count);
    }

    /** XACK: drops the named ids from the pending list. */
    method Ack(batch: seq<Message>)
      requires DistinctIds(pending) && batch <= pending
      modifies this`pending, this`acked
      ensures pending == old(pending)[|batch|..] && acked == old(acked) + batch
    {
      var ids, was := IdsOf(batch), pending;
      var kept: seq<Message> := [];
      for i := 0 to |was|
        invariant acked == old(acked)
        invariant kept == was[|batch|..][..if i <= |batch| then 0 else i - |batch|]
      {
        AckedIds(was, batch, i);
        if was[i].streamId !in ids {
          kept := kept + [was[i]];
        }
      }
      assert was[|batch|..][..|was| - |batch|] == was[|batch|..];
      pending, acked := kept, acked + batch;
    }
  }

  lemma {:induction false} AckedIds(pending: seq<Message>, batch: seq<Message>, i: nat)
    requires DistinctIds(pending) && batch <= pending && i < |pending|
    ensures pending[i].streamId in IdsOf(batch) <==> i < |batch|
  {
    if i < |batch| {
      assert IdsOf(batch)[i] == pending[i].streamId;
    } else {
      forall j | 0 <= j < |batch| ensures IdsOf(batch)[j] != pending[i].streamId {
        assert pending[j].streamId != pending[i].streamId;
      }
    }
  }

  class OrderWorker {
    const db: AuditDb
    const group: ConsumerGroup
    const batchSize: nat
    var running: bool
    var backoffMs: nat
    var sleeps: seq<nat>
    ghost var failures: nat

    ghost function State(): Loop
      reads this, group
    {
      Loop(group.pending, group.unread, group.acked, failures, sleeps)
    }

    ghost predicate Valid()
      reads this, group
    {
      batchSize > 0 && backoffMs == Backoff(failures) && DistinctIds(group.pending + group.unread)
    }

    constructor (db: AuditDb, group: ConsumerGroup, batchSize: nat)
      requires batchSize > 0 && DistinctIds(group.pending + group.unread)
      ensures this.db == db && this.group == group && this.batchSize == batchSize
      ensures Valid() && State() == Loop(group.pending, group.unread, group.acked, 0, [])
    {
      this.db, this.group, this.batchSize := db, group, batchSize;
      running, backoffMs, failures, sleeps := false, INITIAL_BACKOFF_MS, 0, [];
    }

    method SleepOff()
      requires backoffMs == Backoff(failures)
      modifies this`backoffMs, this`failures, this`sleeps
      ensures State() == Fail(old(State())) && backoffMs == Backoff(failures)
      ensures sleeps == old(sleeps) + [old(backoffMs)] && backoffMs == Min(2 * old(backoffMs), 30_000)
    {
      sleeps := sleeps + [backoffMs];
      backoffMs := Min(backoffMs * 2, MAX_BACKOFF_MS);
      failures := failures + 1;
    }

    /** Write, then ack, then reset the backoff; any error skips the rest. */
    method WriteBatch(batch: seq<Message>, o: Outcome)
      requires backoffMs == Backoff(failures) && DistinctIds(group.pending)
      requires !o.ReadFails? && batch == First(group.pending, batchSize)
      modifies this`backoffMs, this`failures, this`sleeps, group`pending, group`acked, db
      ensures backoffMs == Backoff(failures)
      ensures State() == Finish(old(State()), batchSize, o)
      ensures o.Fine? ==> backoffMs == 500 && sleeps == old(sleeps)
      ensures db.Contents() == WriteEffect(old(db.Contents()), PayloadsOf(batch), o)
    {
      var payloads := PayloadsOf(batch);
      if o.WriteFails? {
        if ValidCut(payloads, o.cut) {
          db.InterruptedBulkWrite(payloads, o.cut);
        }
        SleepOff();
        return;
      }
      if CarriedThrough(Delivery(payloads, o.order)) {
        db.InterruptedBulkWrite(payloads, o.order);
      } else {
        db.BulkRecordOrders(payloads);
      }
      if o.Fine? || o.ran {
        group.Ack(batch);
      }
      if o.AckFails? {
        SleepOff();
      } else {
        backoffMs, failures := INITIAL_BACKOFF_MS, 0;
      }
    }

    method IterateOnce(o: Outcome)
      requires Valid()
      modifies this`backoffMs, this`failures, this`sleeps, group, db
      ensures Valid() && State() == Iterate(old(State()), batchSize, o)
      ensures db.Contents() == StoreAfter(old(db.Contents()), old(State()), batchSize, o)
    {
      ghost var w := State();
      IterateKeepsDistinct(w, batchSize, o);
      var batch := [];
      if !o.ReadFails? || o.ran {
        batch := group.ReadPending(batchSize);
        if |batch| == 0 {
          batch := group.ReadBatch(batchSize);
        }
      }
      assert !o.ReadFails? || o.ran ==> State() == Claim(w, batchSize);
      if o.ReadFails? {
        SleepOff();
      } else if |batch| > 0 {
        WriteBatch(batch, o);
      }
    }

    /** The polling loop from start() to stop(): one outcome an iteration. */
    method Run(outcomes: seq<Outcome>)
      requires Valid()
      modifies this, group, db
      ensures Valid() && !running
      ensures State() == IterateAll(old(State()), batchSize, outcomes)
      ensures db.Contents() == StoreAfterAll(old(db.Contents()), old(State()), batchSize, outcomes)
    {
      running := true;
      var i := 0;
      while running
        invariant Valid() && 0 <= i <= |outcomes|
        invariant State() == IterateAll(old(State()), batchSize, outcomes[..i])
        invariant db.Contents() == StoreAfterAll(old(db.Contents()), old(State()), batchSize, outcomes[..i])
        invariant !running ==> i == |outcomes|
        decreases |outcomes| - i, running
      {
        if i == |outcomes| {
          running := false;
        } else {
          assert outcomes[..i + 1][..i] == outcomes[..i];
          IterateOnce(outcomes[i]);
          i := i + 1;
        }
      }
      assert outcomes[..|outcomes|] == outcomes;
    }
  }

  // ---- what the loop does to the audit ----

  function WriteEffect(store: Store, b: seq<Payload>, o: Outcome): Store {
    match o
    case WriteFails(cut) => if ValidCut(b, cut) then Stopped(store, b, cut) else store
    case ReadFails(_) => store
    case _ => if CarriedThrough(Delivery(b, o.order)) then Stopped(store, b, o.order) else Bulk(store, b)
  }

  function StoreAfter(store: Store, w: Loop, n: nat, o: Outcome): Store {
    var batch := First(Claim(w, n).pending, n);
    if o.ReadFails? || batch == [] then store else WriteEffect(store, PayloadsOf(batch), o)
  }

  function StoreAfterAll(store: Store, w: Loop, n: nat, os: seq<Outcome>): Store {
    if os == [] then store
    else
      var most := os[..|os| - 1];
      StoreAfter(StoreAfterAll(store, w, n, most), IterateAll(w, n, most), n, os[|os| - 1])
  }

  /** The store only grew by queued payloads, and every acked one is recorded. */
  ghost predicate Audited(before: Store, all: seq<Payload>, w: Loop, now: Store) {
    && Sound(now) && Grows(before, PayloadSet(all), now)
    && forall m | m in w.acked :: Recorded(now, m.payload)
  }

  lemma {:induction false} ClaimTakesThePrefix(w: Loop, n: nat)
    ensures var c := Claim(w, n);
            && c.pending + c.unread == w.pending + w.unread
            && c.pending == (w.pending + w.unread)[..|c.pending|]
  {
  }

  /** What an iteration leaves to do is a suffix of what there was. */
  lemma {:induction false} IterateLeavesASuffix(w: Loop, n: nat, o: Outcome) returns (k: nat)
    ensures k <= |w.pending + w.unread|
    ensures var v := Iterate(w, n, o); v.pending + v.unread == (w.pending + w.unread)[k..]
  {
    var c := Claim(w, n);
    ClaimTakesThePrefix(w, n);
    var v := Iterate(w, n, o);
    if (v.pending == c.pending && v.unread == c.unread) || (v.pending == w.pending && v.unread == w.unread) {
      k := 0;
    } else {
      k := |First(c.pending, n)|;
      assert Rest(c.pending, n) == c.pending[k..];
      assert (c.pending + c.unread)[k..] == c.pending[k..] + c.unread;
    }
  }

  lemma {:induction false} IterateKeepsDistinct(w: Loop, n: nat, o: Outcome)
    requires DistinctIds(w.pending + w.unread)
    ensures var v := Iterate(w, n, o); DistinctIds(v.pending + v.unread)
    ensures DistinctIds(Claim(w, n).pending)
  {
    var q := w.pending + w.unread;
    ClaimTakesThePrefix(w, n);
    SliceDistinct(q, 0, |Claim(w, n).pending|);
    var k := IterateLeavesASuffix(w, n, o);
    SliceDistinct(q, k, |q|);
    assert q[k..|q|] == q[k..] && q[0..|Claim(w, n).pending|] == q[..|Claim(w, n).pending|];
  }

  lemma {:induction false} SliceDistinct(ms: seq<Message>, lo: nat, hi: nat)
    requires DistinctIds(ms) && lo <= hi <= |ms|
    ensures DistinctIds(ms[lo..hi])
  {
    forall i, j | 0 <= i < j < hi - lo ensures ms[lo..hi][i].streamId != ms[lo..hi][j].streamId {
      assert ms[lo + i].streamId != ms[lo + j].streamId;
    }
  }

  lemma {:induction false} PayloadsSet(ms: seq<Message>, m: Message)
    requires m in ms
    ensures m.payload in PayloadSet(PayloadsOf(ms))
  {
    var i :| 0 <= i < |ms| && ms[i] == m;
    assert PayloadsOf(ms)[i] == m.payload;
  }

  /** A batch of at most `n` payloads that the loop could cut out of `all`. */
  function Window(all: seq<Payload>, i: nat, n: nat): seq<Payload>
    requires i <= |all|
  {
    First(all[i..], n)
  }

  /** No email appears under two sales within one batch; farther apart it may. */
  ghost predicate OneSalePerBatch(all: seq<Payload>, n: nat) {
    forall i {:trigger Window(all, i, n)} | 0 <= i <= |all| :: OneSalePerEmail(Window(all, i, n))
  }

  /** A batch is a window of what was queued. */
  lemma {:induction false} BatchIsAWindow(all: seq<Payload>, w: Loop, n: nat)
    requires all == PayloadsOf(Messages(w)) && OneSalePerBatch(all, n)
    ensures var b := PayloadsOf(First(Claim(w, n).pending, n));
            PayloadSet(b) <= PayloadSet(all) && OneSalePerEmail(b)
  {
    var ms, i := First(Claim(w, n).pending, n), |w.acked|;
    var b, window := PayloadsOf(ms), Window(all, i, n);
    ClaimTakesThePrefix(w, n);
    forall j | 0 <= j < |b| ensures j < |window| && b[j] == window[j] && window[j] in all {
      assert Messages(w)[i + j] == ms[j];
      assert all[i + j] == b[j];
    }
    assert OneSalePerEmail(window);
    PartOfABatch(b, window);
    assert forall q | q in b :: q in all;
  }

  lemma {:induction false} PartOfABatch(b: seq<Payload>, batch: seq<Payload>)
    requires OneSalePerEmail(batch) && forall j | 0 <= j < |b| :: b[j] in batch
    ensures OneSalePerEmail(b)
  {
    assert forall q | q in b :: q in batch;
  }

  lemma {:induction false} WriteGrows(store: Store, b: seq<Payload>, o: Outcome, ps: set<Payload>)
    requires Sound(store) && OneSalePerEmail(b) && PayloadSet(b) <= ps
    ensures var t := WriteEffect(store, b, o);
            && Sound(t) && Grows(store, ps, t)
            && (o.Fine? || o.AckFails? ==> Complete(t, PayloadSet(b)))
  {
    match o
    case ReadFails(_) => GrowsRefl(store, ps);
    case WriteFails(cut) =>
      if ValidCut(b, cut) {
        DeliverGrows(store, Delivery(b, cut), ps);
      } else {
        GrowsRefl(store, ps);
      }
    case _ =>
      BulkIsADelivery(store, b);
      DeliverGrows(store, Delivery(b, if CarriedThrough(Delivery(b, o.order)) then o.order else InLines(b, b, b)), ps);
  }

  lemma {:induction false} IterateAudited(before: Store, all: seq<Payload>, w: Loop, store: Store, n: nat, o: Outcome)
    requires Audited(before, all, w, store) && all == PayloadsOf(Messages(w)) && OneSalePerBatch(all, n)
    ensures Audited(before, all, Iterate(w, n, o), StoreAfter(store, w, n, o))
  {
    var ms, t, ps := First(Claim(w, n).pending, n), StoreAfter(store, w, n, o), PayloadSet(all);
    BatchIsAWindow(all, w, n);
    if t == store {
      GrowsRefl(store, ps);
    } else {
      WriteGrows(store, PayloadsOf(ms), o, ps);
    }
    GrowsTrans(before, ps, store, t);
    forall m | m in Iterate(w, n, o).acked ensures Recorded(t, m.payload) {
      if m in w.acked {
        RecordedStays(store, ps, t, m.payload);
      } else {
        AckedWasWritten(w, n, o, m);
        WriteGrows(store, PayloadsOf(ms), o, ps);
        PayloadsSet(ms, m);
      }
    }
  }

  lemma {:induction false} AckedWasWritten(w: Loop, n: nat, o: Outcome, m: Message)
    requires m in Iterate(w, n, o).acked && m !in w.acked
    ensures (o.Fine? || o.AckFails?) && m in First(Claim(w, n).pending, n)
  {
  }

  /** Whatever the outcomes were, every acked entry is recorded and the store has
      nothing but what was queued, as long as single batches keep each email under
      one sale. */
  lemma {:induction false} LoopAudited(
      before: Store, all: seq<Payload>, w: Loop, store: Store, n: nat, os: seq<Outcome>)
    requires Audited(before, all, w, store) && all == PayloadsOf(Messages(w)) && OneSalePerBatch(all, n)
    ensures Audited(before, all, IterateAll(w, n, os), StoreAfterAll(store, w, n, os))
  {
    if os != [] {
      var most := os[..|os| - 1];
      LoopAudited(before, all, w, store, n, most);
      IterateAllKeepsMessages(w, n, most);
      IterateAudited(before, all, IterateAll(w, n, most), StoreAfterAll(store, w, n, most), n, os[|os| - 1]);
    }
  }

  /** Whatever read, write and ack failures came before, once the loop has emptied
      both lists the store holds exactly the records of everything queued. */
  lemma {:induction false} DrainedLoopRecordsAll(w: Loop, store: Store, n: nat, os: seq<Outcome>)
    requires Sound(store) && w.acked == [] && OneSalePerBatch(PayloadsOf(Messages(w)), n)
    requires var v := IterateAll(w, n, os); v.pending == [] && v.unread == []
    ensures Records(store, PayloadSet(PayloadsOf(Messages(w))), StoreAfterAll(store, w, n, os))
  {
    var all, v, t := PayloadsOf(Messages(w)), IterateAll(w, n, os), StoreAfterAll(store, w, n, os);
    GrowsRefl(store, PayloadSet(all));
    LoopAudited(store, all, w, store, n, os);
    IterateAllKeepsMessages(w, n, os);
    assert v.acked == Messages(w);
    forall q | q in PayloadSet(all) ensures Recorded(t, q) {
      var i :| 0 <= i < |all| && all[i] == q;
      assert v.acked[i].payload == q && v.acked[i] in v.acked;
    }
  }

  /** That is what any other history of the same payloads leaves, one undisturbed
      bulk write of everything among them. */
  lemma {:induction false} DrainedLoopIsOneBulkWrite(w: Loop, store: Store, n: nat, os: seq<Outcome>, ds: seq<Delivery>)
    requires Sound(store) && w.acked == [] && OneSalePerBatch(PayloadsOf(Messages(w)), n)
    requires var v := IterateAll(w, n, os); v.pending == [] && v.unread == []
    requires PricesAgree(PayloadSet(PayloadsOf(Messages(w))))
    requires var ps := PayloadSet(PayloadsOf(Messages(w))); ValidHistory(ds, ps) && Delivered(ds, ps)
    ensures SameRecords(StoreAfterAll(store, w, n, os), DeliverAll(store, ds, PayloadSet(PayloadsOf(Messages(w)))))
  {
    var ps := PayloadSet(PayloadsOf(Messages(w)));
    DrainedLoopRecordsAll(w, store, n, os);
    DeliverAllGrows(store, ds, ps);
    RecordsDeterminesContents(store, ps, StoreAfterAll(store, w, n, os), DeliverAll(store, ds, ps));
  }

  // ---- what one iteration leaves ----

  /** By outcome: a good iteration acks the oldest pending batch or, with nothing
      pending, the oldest unread one; a failed write leaves its batch pending; a
      failed ack counts if it ran; a failed read at most claims new entries. */
  lemma {:induction false} IterationIsExact(w: Loop, n: nat, o: Outcome)
    requires n > 0
    ensures var v := Iterate(w, n, o);
            var batch := First(if w.pending != [] then w.pending else w.unread, n);
            && (o.Fine? || (o.AckFails? && o.ran) ==>
                  v.acked == w.acked + batch && v.pending + v.unread == (w.pending + w.unread)[|batch|..])
            && (o.WriteFails? || (o.AckFails? && !o.ran) ==>
                  v.acked == w.acked && v.pending == (if w.pending != [] then w.pending else batch))
            && (o.ReadFails? ==>
                  v.acked == w.acked && v.pending == (if w.pending != [] || !o.ran then w.pending else batch))
            && (batch == [] ==> v.pending == [] && v.unread == [])
  {
    if |w.pending| > n {
      assert (w.pending + w.unread)[n..] == w.pending[n..] + w.unread;
    } else {
      assert (w.pending + w.unread)[|w.pending|..] == w.unread;
    }
    assert w.pending == [] ==> w.pending + w.unread == w.unread;
  }

  /** A write that succeeded is a delivery that carried the whole batch through,
      whether or not its ack did. */
  lemma {:induction false} GoodWriteDeliversAll(store: Store, b: seq<Payload>, o: Outcome)
    requires o.Fine? || o.AckFails?
    ensures exists d: Delivery :: d.batch == b && CarriedThrough(d) && WriteEffect(store, b, o) == Deliver(store, d)
  {
    BulkIsADelivery(store, b);
    var d := Delivery(b, o.order);
    assert CarriedThrough(d) ==> WriteEffect(store, b, o) == Deliver(store, d);
  }

  // ---- backoff ----

  function Pow2(k: nat): nat {
    if k == 0 then 1 else 2 * Pow2(k - 1)
  }

  lemma {:induction false} BackoffClosedForm(k: nat)
    ensures Backoff(k) == Min(500 * Pow2(k), 30_000)
  {
    if k > 0 {
      BackoffClosedForm(k - 1);
    }
  }

  /** This iteration ends in a persisted and acked batch. */
  predicate Succeeds(w: Loop, n: nat, o: Outcome) {
    o.Fine? && Claim(w, n).pending != []
  }

  /** No iteration of the run succeeds. */
  predicate Failing(w: Loop, n: nat, os: seq<Outcome>) {
    os != [] ==>
      Failing(w, n, os[..|os| - 1]) && !Succeeds(IterateAll(w, n, os[..|os| - 1]), n, os[|os| - 1])
  }

  /** This iteration fails: its read, or the write or ack of a batch it has. */
  predicate Stumbles(w: Loop, n: nat, o: Outcome) {
    o.ReadFails? || (!o.Fine? && Claim(w, n).pending != [])
  }

  function StumblesIn(w: Loop, n: nat, os: seq<Outcome>): nat {
    if os == [] then 0
    else
      var most := os[..|os| - 1];
      StumblesIn(w, n, most) + if Stumbles(IterateAll(w, n, most), n, os[|os| - 1]) then 1 else 0
  }

  /** The sleeps of `m` failures in a row. */
  function StreakSleeps(m: nat): (r: seq<nat>)
    ensures |r| == m && forall k | 0 <= k < m :: r[k] == Min(500 * Pow2(k), 30_000)
  {
    if m == 0 then [] else StreakSleeps(m - 1) + [Min(500 * Pow2(m - 1), 30_000)]
  }

  lemma {:induction false} StreakFromScratch(w: Loop, n: nat, os: seq<Outcome>)
    requires w.failures == 0 && Failing(w, n, os)
    ensures var v := IterateAll(w, n, os);
            v.failures == StumblesIn(w, n, os) && v.sleeps == w.sleeps + StreakSleeps(v.failures)
  {
    if os != [] {
      StreakFromScratch(w, n, os[..|os| - 1]);
      BackoffClosedForm(IterateAll(w, n, os[..|os| - 1]).failures);
    }
  }

  /** Whatever went on before, after a batch that was persisted and acked the k-th
      failure until the next such batch sleeps min(500 * 2^k, 30000) ms, k from 0.
      Every failed read, and every failed write or ack of a batch, sleeps once;
      nothing else does. */
  lemma {:induction false} FailureStreakSleeps(
      w: Loop, n: nat, before: seq<Outcome>, good: Outcome, streak: seq<Outcome>)
    requires Succeeds(IterateAll(w, n, before), n, good)
    requires Failing(IterateAll(w, n, before + [good]), n, streak)
    ensures IterateAll(w, n, before + [good] + streak).sleeps
            == IterateAll(w, n, before).sleeps
               + StreakSleeps(StumblesIn(IterateAll(w, n, before + [good]), n, streak))
  {
    assert (before + [good])[..|before|] == before;
    IterateAppend(w, n, before + [good], streak);
    StreakFromScratch(IterateAll(w, n, before + [good]), n, streak);
  }

  // ---- drain ----

  function Ceil(m: nat, n: nat): nat
    requires n > 0
  {
    (m + n - 1) / n
  }

  /** Batches of `n` that `m` entries make, counted off one by one. */
  function Batches(m: nat, n: nat): (r: nat)
    requires n > 0
    ensures r == 0 <==> m == 0
  {
    if m == 0 then 0 else if m <= n then 1 else 1 + Batches(m - n, n)
  }

  lemma {:induction false} MultipleIsFar(d: int, n: int)
    requires n > 0
    ensures (d >= 1 ==> d * n >= n) && (d <= -1 ==> d * n <= -n)
  {
  }

  lemma {:induction false} Distribute(p: int, q: int, n: int)
    ensures (p - q - 1) * n == p * n - q * n - n
  {
  }

  lemma {:induction false} DivStep(x: nat, n: nat)
    requires n > 0
    ensures (x + n) / n == x / n + 1
  {
    var q, p := x / n, (x + n) / n;
    var qn, pn := q * n, p * n;
    assert x == qn + x % n && x + n == pn + (x + n) % n;
    Distribute(p, q, n);
    MultipleIsFar(p - q - 1, n);
  }

  lemma {:induction false} BatchesIsCeil(m: nat, n: nat)
    requires n > 0
    ensures Batches(m, n) == Ceil(m, n)
  {
    if m > n {
      BatchesIsCeil(m - n, n);
      DivStep(m - 1, n);
    } else if m > 0 {
      DivStep(m - 1, n);
    }
  }

  function Todo(w: Loop, n: nat): nat
    requires n > 0
  {
    Batches(|w.pending|, n) + Batches(|w.unread|, n)
  }

  predicate AllFine(os: seq<Outcome>) {
    forall i | 0 <= i < |os| :: os[i].Fine?
  }

  /** One good iteration: own pending entries first, new ones only afterwards. */
  lemma {:induction false} OneFine(w: Loop, n: nat, o: Outcome)
    requires n > 0 && o.Fine?
    ensures var v := Iterate(w, n, o);
            if w.pending != [] then v.pending == Rest(w.pending, n) && v.unread == w.unread
            else v.pending == [] && v.unread == Rest(w.unread, n)
  {
  }

  lemma {:induction false} OneBatchLess(w: Loop, n: nat, o: Outcome)
    requires n > 0 && o.Fine?
    ensures var v := Iterate(w, n, o);
            && Todo(v, n) == (if Todo(w, n) == 0 then 0 else Todo(w, n) - 1)
            && (w.pending != [] ==> Batches(|v.pending|, n) == Batches(|w.pending|, n) - 1 && v.unread == w.unread)
  {
    OneFine(w, n, o);
  }

  lemma {:induction false} IterateAppend(w: Loop, n: nat, os: seq<Outcome>, more: seq<Outcome>)
    ensures IterateAll(w, n, os + more) == IterateAll(IterateAll(w, n, os), n, more)
  {
    if more == [] {
      assert os + more == os;
    } else {
      IterateAppend(w, n, os, more[..|more| - 1]);
      assert (os + more)[..|os + more| - 1] == os + more[..|more| - 1];
    }
  }

  lemma {:induction false} GoodRun(w: Loop, n: nat, good: seq<Outcome>)
    requires n > 0 && AllFine(good)
    ensures var v := IterateAll(w, n, good);
            && Todo(v, n) == (if |good| >= Todo(w, n) then 0 else Todo(w, n) - |good|)
            && (|good| <= Batches(|w.pending|, n) ==>
                 v.unread == w.unread && Batches(|v.pending|, n) == Batches(|w.pending|, n) - |good|)
  {
    if good != [] {
      var most := good[..|good| - 1];
      GoodRun(w, n, most);
      OneBatchLess(IterateAll(w, n, most), n, good[|good| - 1]);
    }
  }

  /** With both stores answering, in whatever order they apply the upserts, and
      nothing arriving, p pending and m unread entries take exactly
      ceil(p/n) + ceil(m/n) iterations, and no new entry is read before the pending
      ones are gone. */
  lemma {:induction false} DrainsExactly(w: Loop, n: nat, good: seq<Outcome>)
    requires n > 0 && AllFine(good)
    ensures var v := IterateAll(w, n, good);
            v.pending == [] && v.unread == [] <==> |good| >= Ceil(|w.pending|, n) + Ceil(|w.unread|, n)
    ensures |good| <= Ceil(|w.pending|, n) ==> IterateAll(w, n, good).unread == w.unread
  {
    GoodRun(w, n, good);
    BatchesIsCeil(|w.pending|, n);
    BatchesIsCeil(|w.unread|, n);
  }

  /** Any outage, then both stores answering for as many iterations as the two
      lists need: the audit holds exactly the records of everything queued. */
  lemma {:induction false} RecoversFromAnyOutage(
      w: Loop, store: Store, n: nat, outage: seq<Outcome>, good: seq<Outcome>)
    requires n > 0 && Sound(store) && w.acked == [] && AllFine(good)
    requires OneSalePerBatch(PayloadsOf(Messages(w)), n)
    requires var v := IterateAll(w, n, outage); |good| >= Ceil(|v.pending|, n) + Ceil(|v.unread|, n)
    ensures Records(store, PayloadSet(PayloadsOf(Messages(w))), StoreAfterAll(store, w, n, outage + good))
  {
    IterateAppend(w, n, outage, good);
    DrainsExactly(IterateAll(w, n, outage), n, good);
    DrainedLoopRecordsAll(w, store, n, outage + good);
  }
}

/**
 The write-behind audit as one transition system: script verdict, XADD, the
 consumer group with its pending lists, the five-phase bulk write one upsert at
 a time, and XACK. API processes and workers crash at any step, any number of
 workers with distinct consumer ids interleave, writes stop part-way, XADD and
 XACK may fail with or without having run. What a worker had sent when it gave up
 or died may still run at any later time, next to the retry.

 One sale; nothing is trimmed from the stream and no cold rebuild happens.
 */
module Pipeline {
  import opened Ids
  import opened AuditStore
  import opened BulkAudit
  import opened OrderScript

  type Consumer = nat

  datatype Phase =
    | Users
    | Orders(userIds: map<Email, nat>)
    | Lines(orderIds: map<Email, nat>)
    | Ack

  /** What a worker process holds in memory; a crash forgets it. `done` are the
      entries of `batch` whose upsert of the current phase has been applied. */
  datatype Worker = Idle | Busy(batch: seq<nat>, phase: Phase, done: set<nat>)

  /** An upsert, or in the last phase an XACK, that its worker no longer waits for. */
  datatype Stray = Stray(c: Consumer, phase: Phase, entry: nat)

  /** `outbox`: accepted, reply received, XADD not yet run. `lost`: accepted but
      never going to be enqueued. Entry ids are positions in `stream`. */
  datatype Sys = Sys(
    sale: SaleState,
    outbox: set<Email>,
    lost: set<Email>,
    stream: seq<Payload>,
    cursor: nat,
    pel: map<Consumer, set<nat>>,
    acked: set<nat>,
    workers: map<Consumer, Worker>,
    strays: set<Stray>,
    store: Store)

  datatype Step =
    | Attempt(email: Email, replied: bool)
    | Enqueue(email: Email, productId: ProductId, price: int)
    | EnqueueFails(email: Email)
    | ApiCrash
    | ReadPending(c: Consumer, batch: seq<nat>)
    | ReadNew(c: Consumer, count: nat)
    | Upsert(c: Consumer, entry: nat)
    | PhaseDone(c: Consumer)
    | AckRuns(c: Consumer)
    | Abandon(c: Consumer)
    | StrayLands(stray: Stray)

  /** The instance: which sale, its stock, and what MongoDB held before. */
  datatype Setup = Setup(saleId: SaleId, stock: nat, before: Store)

  ghost predicate ValidSetup(u: Setup) {
    Sound(u.before) && forall k | k in u.before.orders :: k.saleId != u.saleId
  }

  ghost predicate Init(u: Setup, s: Sys) {
    && s.sale == SaleState(Some(u.stock), {})
    && s.outbox == {} && s.lost == {} && s.stream == [] && s.cursor == 0 && s.acked == {}
    && s.strays == {} && s.store == u.before
    && s.pel.Keys == s.workers.Keys
    && (forall c | c in s.workers :: s.workers[c].Idle? && s.pel[c] == {})
  }

  function Payloads(stream: seq<Payload>, batch: seq<nat>): seq<Payload>
    requires forall i | i in batch :: i < |stream|
  {
    seq(|batch|, j requires 0 <= j < |batch| => assert batch[j] in batch; stream[batch[j]])
  }

  function Span(lo: nat, n: nat): (r: set<nat>)
    ensures forall i: nat :: i in r <==> lo <= i < lo + n
  {
    if n == 0 then {} else Span(lo, n - 1) + {lo + n - 1}
  }

  predicate Enabled(s: Sys, step: Step) {
    match step
    case Attempt(_, _) => true
    case Enqueue(e, _, _) => e in s.outbox
    case EnqueueFails(e) => e in s.outbox
    case ApiCrash => true
    case ReadPending(c, batch) =>
      // id "0": only entries of the consumer's own pending list
      InIdle(s, c) && batch != [] && forall i | i in batch :: i in s.pel[c]
    case ReadNew(c, n) =>
      // id ">": only when readPending came back empty
      InIdle(s, c) && s.pel[c] == {} && 0 < n <= |s.stream| - s.cursor
    case Upsert(c, i) =>
      InBusy(s, c) && !s.workers[c].phase.Ack? && i in s.workers[c].batch && i !in s.workers[c].done && i < |s.stream|
    case PhaseDone(c) =>
      && InBusy(s, c) && !s.workers[c].phase.Ack?
      && (forall i | i in s.workers[c].batch :: i in s.workers[c].done && i < |s.stream|)
    case AckRuns(c) => InBusy(s, c) && s.workers[c].phase.Ack?
    case Abandon(c) => InBusy(s, c)
    case StrayLands(x) => x in s.strays && x.c in s.pel && x.entry < |s.stream|
  }

  predicate InIdle(s: Sys, c: Consumer) {
    c in s.workers && c in s.pel && s.workers[c].Idle?
  }

  predicate InBusy(s: Sys, c: Consumer) {
    c in s.workers && c in s.pel && s.workers[c].Busy?
  }

  /** One single-document upsert of the phase the worker is in. */
  function UpsertFor(store: Store, phase: Phase, q: Payload): Store {
    match phase
    case Users => UpsertUser(store, q.email)
    case Orders(userIds) => if q.email in userIds then UpsertOrder(store, q.Key(), userIds[q.email]) else store
    case Lines(orderIds) =>
      if q.email in orderIds then UpsertLine(store, LineRef(orderIds[q.email], q.productId), q.price) else store
    case Ack => store
  }

  function NextPhase(store: Store, phase: Phase, b: seq<Payload>): Phase {
    match phase
    case Users => Orders(ResolveUsers(store, b))
    case Orders(_) => Lines(ResolveOrders(store, b, SaleOrder(b)))
    case Lines(_) => Ack
    case Ack => Ack
  }

  /** What of the phase had not been confirmed. */
  function LeftBehind(c: Consumer, w: Worker): set<Stray>
    requires w.Busy?
  {
    set i | i in w.batch && i !in w.done :: Stray(c, w.phase, i)
  }

  function Apply(u: Setup, s: Sys, step: Step): Sys
    requires Enabled(s, step)
  {
    match step
    case Attempt(e, replied) =>
      var d := Decide(s.sale, e);
      var t := s.(sale := d.state);
      if d.reply.Reply? && d.reply.verdict == OK then
        if replied then t.(outbox := s.outbox + {e}) else t.(lost := s.lost + {e})
      else t
    case Enqueue(e, p, price) =>
      s.(outbox := s.outbox - {e}, stream := s.stream + [Payload(u.saleId, p, e, price)])
    case EnqueueFails(e) => s.(outbox := s.outbox - {e}, lost := s.lost + {e})
    case ApiCrash => s.(outbox := {}, lost := s.lost + s.outbox)
    case ReadPending(c, batch) => s.(workers := s.workers[c := Busy(batch, Users, {})])
    case ReadNew(c, n) =>
      var batch := seq(n, j => s.cursor + j);
      s.(cursor := s.cursor + n,
         pel := s.pel[c := s.pel[c] + Span(s.cursor, n)],
         workers := s.workers[c := Busy(batch, Users, {})])
    case Upsert(c, i) =>
      var w := s.workers[c];
      s.(store := UpsertFor(s.store, w.phase, s.stream[i]), workers := s.workers[c := w.(done := w.done + {i})])
    case PhaseDone(c) =>
      var w := s.workers[c];
      s.(workers := s.workers[c := Busy(w.batch, NextPhase(s.store, w.phase, Payloads(s.stream, w.batch)), {})])
    case AckRuns(c) =>
      var ids := set i | i in s.workers[c].batch;
      s.(pel := s.pel[c := s.pel[c] - ids], acked := s.acked + ids, workers := s.workers[c := Idle])
    case Abandon(c) => s.(strays := s.strays + LeftBehind(c, s.workers[c]), workers := s.workers[c := Idle])
    case StrayLands(x) =>
      if x.phase.Ack? then s.(pel := s.pel[x.c := s.pel[x.c] - {x.entry}], acked := s.acked + {x.entry})
      else s.(store := UpsertFor(s.store, x.phase, s.stream[x.entry]))
  }

  // ---- the inductive invariant, one part per concern ----

  function StreamEmails(stream: seq<Payload>): set<Email> {
    set q | q in stream :: q.email
  }

  ghost predicate Accounted(buyers: set<Email>, outbox: set<Email>, lost: set<Email>, queued: set<Email>) {
    buyers == outbox + lost + queued && outbox !! lost && outbox !! queued && lost !! queued
  }

  /** Units are conserved and never oversold. */
  ghost predicate DecisionInv(u: Setup, sale: SaleState) {
    sale.stock.Some? && sale.stock.value >= 0 && Capacity(sale) == u.stock
  }

  /** Every buyer is waiting, lost, or in exactly one stream entry. */
  ghost predicate BuyersInv(u: Setup, s: Sys) {
    && Accounted(s.sale.buyers, s.outbox, s.lost, StreamEmails(s.stream))
    && OneEntryEach(u, s.stream)
  }

  ghost predicate OneEntryEach(u: Setup, stream: seq<Payload>) {
    && (forall i, j {:trigger stream[i].email, stream[j].email} | 0 <= i < j < |stream| ::
         stream[i].email != stream[j].email)
    && (forall i {:trigger stream[i].saleId} | 0 <= i < |stream| :: stream[i].saleId == u.saleId)
  }

  ghost predicate InSomePel(pel: map<Consumer, set<nat>>, i: nat) {
    exists c {:trigger i in pel[c]} :: c in pel && i in pel[c]
  }

  /** Undelivered, pending with exactly one consumer, or acked. */
  ghost predicate GroupInv(n: nat, cursor: nat, pel: map<Consumer, set<nat>>, acked: set<nat>) {
    && cursor <= n
    && (forall i | i in acked :: i < cursor)
    && (forall c, i {:trigger i in pel[c]} | c in pel && i in pel[c] :: i < cursor && i !in acked)
    && (forall c, d, i {:trigger i in pel[c], i in pel[d]} | c in pel && d in pel && i in pel[c] && i in pel[d] ::
         c == d)
    && (forall i: nat {:trigger InSomePel(pel, i)} | i < cursor && i !in acked :: InSomePel(pel, i))
  }

  /** Payloads of the entries delivered so far. */
  function Taken(stream: seq<Payload>, cursor: nat): set<Payload>
    requires cursor <= |stream|
  {
    PayloadSet(stream[..cursor])
  }

  /** A batch is its owner's, and its phase has what the source's maps promise. */
  ghost predicate WorkerInv(w: Worker, own: set<nat>, stream: seq<Payload>, store: Store) {
    w.Busy? ==>
      && (forall i {:trigger i in w.batch} | i in w.batch ::
           i in own && i < |stream| && EntryInv(w.phase, i in w.done, stream[i], store))
      && (forall i {:trigger i in w.done} | i in w.done :: i in w.batch)
  }

  ghost predicate EntryInv(phase: Phase, done: bool, q: Payload, store: Store) {
    match phase
    case Users => done ==> q.email in store.users
    case Orders(userIds) =>
      && q.email in userIds && q.email in store.users && userIds[q.email] == store.users[q.email]
      && (done ==> q.Key() in store.orders)
    case Lines(orderIds) =>
      q.email in store.users && RightOrder(store, q, orderIds) && (done ==> Recorded(store, q))
    case Ack => Recorded(store, q)
  }

  /** What the consumer was delivered: still pending, or acked by somebody. */
  function Own(s: Sys, c: Consumer): set<nat>
    requires c in s.pel
  {
    s.pel[c] + s.acked
  }

  ghost predicate WorkersInv(s: Sys) {
    && s.pel.Keys == s.workers.Keys
    && forall c | c in s.workers :: WorkerInv(s.workers[c], Own(s, c), s.stream, s.store)
  }

  /** A stray has what its worker made sure of before it sent it. */
  ghost predicate StrayInv(s: Sys, x: Stray) {
    && x.c in s.pel && x.entry in Own(s, x.c) && x.entry < |s.stream|
    && EntryInv(x.phase, false, s.stream[x.entry], s.store)
  }

  ghost predicate StraysInv(s: Sys) {
    forall x {:trigger StrayInv(s, x)} | x in s.strays :: StrayInv(s, x)
  }

  ghost predicate AckedInv(s: Sys) {
    forall i {:trigger i in s.acked} | i in s.acked :: i < |s.stream| && Recorded(s.store, s.stream[i])
  }

  ghost predicate StoreInv(u: Setup, s: Sys) {
    s.cursor <= |s.stream| && Sound(s.store) && Grows(u.before, Taken(s.stream, s.cursor), s.store)
  }

  datatype Part = DecisionPart | BuyersPart | GroupPart | StorePart | WorkersPart | StraysPart | AckedPart

  ghost predicate Holds(part: Part, u: Setup, s: Sys) {
    match part
    case DecisionPart => DecisionInv(u, s.sale)
    case BuyersPart => BuyersInv(u, s)
    case GroupPart => GroupInv(|s.stream|, s.cursor, s.pel, s.acked)
    case StorePart => StoreInv(u, s)
    case WorkersPart => WorkersInv(s)
    case StraysPart => StraysInv(s)
    case AckedPart => AckedInv(s)
  }

  ghost predicate Inv(u: Setup, s: Sys) {
    forall part :: Holds(part, u, s)
  }

  lemma {:induction false} InitInv(u: Setup, s: Sys)
    requires ValidSetup(u) && Init(u, s)
    ensures Inv(u, s)
  {
    GrowsRefl(u.before, {});
    assert Taken(s.stream, s.cursor) == {};
    assert Holds(DecisionPart, u, s);
    assert Holds(BuyersPart, u, s);
    assert Holds(GroupPart, u, s);
    assert Holds(StorePart, u, s);
    assert Holds(WorkersPart, u, s);
    assert Holds(StraysPart, u, s);
    assert Holds(AckedPart, u, s);
  }

  // ---- DecisionPart and BuyersPart: the verdict and the outbox ----

  lemma {:induction false} KeepsDecision(u: Setup, s: Sys, step: Step)
    requires Enabled(s, step) && Holds(DecisionPart, u, s)
    ensures Holds(DecisionPart, u, Apply(u, s, step))
  {
    if step.Attempt? {
      DecideConserves(s.sale, step.email);
    }
  }

  lemma {:induction false} KeepsBuyers(u: Setup, s: Sys, step: Step)
    requires Enabled(s, step) && Holds(BuyersPart, u, s)
    ensures Holds(BuyersPart, u, Apply(u, s, step))
  {
    match step
    case Attempt(e, replied) =>
      NewBuyerAccounted(s.sale.buyers, s.outbox, s.lost, StreamEmails(s.stream), e);
    case Enqueue(e, p, price) =>
      AppendedEmails(s.stream, Payload(u.saleId, p, e, price));
      QueuedAccounted(s.sale.buyers, s.outbox, s.lost, StreamEmails(s.stream), e);
      AppendedOneEntryEach(u, s.stream, Payload(u.saleId, p, e, price));
    case EnqueueFails(e) => LostAccounted(s.sale.buyers, s.outbox, s.lost, StreamEmails(s.stream), {e});
    case ApiCrash => LostAccounted(s.sale.buyers, s.outbox, s.lost, StreamEmails(s.stream), s.outbox);
    case _ =>
  }

  lemma {:induction false} NewBuyerAccounted(
      buyers: set<Email>, outbox: set<Email>, lost: set<Email>, queued: set<Email>, e: Email)
    requires Accounted(buyers, outbox, lost, queued)
    ensures e !in buyers ==> Accounted(buyers + {e}, outbox + {e}, lost, queued)
    ensures e !in buyers ==> Accounted(buyers + {e}, outbox, lost + {e}, queued)
  {
  }

  lemma {:induction false} QueuedAccounted(
      buyers: set<Email>, outbox: set<Email>, lost: set<Email>, queued: set<Email>, e: Email)
    requires Accounted(buyers, outbox, lost, queued) && e in outbox
    ensures Accounted(buyers, outbox - {e}, lost, queued + {e})
  {
  }

  lemma {:induction false} LostAccounted(
      buyers: set<Email>, outbox: set<Email>, lost: set<Email>, queued: set<Email>, es: set<Email>)
    requires Accounted(buyers, outbox, lost, queued) && es <= outbox
    ensures Accounted(buyers, outbox - es, lost + es, queued)
  {
  }

  lemma {:induction false} AppendedEmails(stream: seq<Payload>, q: Payload)
    ensures StreamEmails(stream + [q]) == StreamEmails(stream) + {q.email}
  {
    var longer := stream + [q];
    assert q in longer && forall x | x in stream :: x in longer;
  }

  lemma {:induction false} AppendedOneEntryEach(u: Setup, stream: seq<Payload>, q: Payload)
    requires OneEntryEach(u, stream) && q.email !in StreamEmails(stream) && q.saleId == u.saleId
    ensures OneEntryEach(u, stream + [q])
  {
    forall i | 0 <= i < |stream| ensures stream[i].email != q.email {
      assert stream[i] in stream;
    }
  }

  // ---- GroupPart: the consumer group ----

  lemma {:induction false} KeepsGroup(u: Setup, s: Sys, step: Step)
    requires Enabled(s, step) && Holds(GroupPart, u, s) && Holds(WorkersPart, u, s) && Holds(StraysPart, u, s)
    ensures Holds(GroupPart, u, Apply(u, s, step))
  {
    match step
    case ReadNew(c, count) => DeliveryKeepsGroup(|s.stream|, s.cursor, s.pel, s.acked, c, count);
    case AckRuns(c) =>
      assert WorkerInv(s.workers[c], Own(s, c), s.stream, s.store);
      AckKeepsGroup(|s.stream|, s.cursor, s.pel, s.acked, c, set i | i in s.workers[c].batch);
    case StrayLands(x) =>
      assert StrayInv(s, x);
      AckKeepsGroup(|s.stream|, s.cursor, s.pel, s.acked, x.c, {x.entry});
    case _ =>
  }

  lemma {:induction false} DeliveryKeepsGroup(
      n: nat, cursor: nat, pel: map<Consumer, set<nat>>, acked: set<nat>, c: Consumer, count: nat)
    requires GroupInv(n, cursor, pel, acked) && c in pel && count <= n - cursor
    ensures GroupInv(n, cursor + count, pel[c := pel[c] + Span(cursor, count)], acked)
  {
    var pel' := pel[c := pel[c] + Span(cursor, count)];
    assert forall d, i {:trigger i in pel'[d]} | d in pel' && i in pel'[d] :: i < cursor + count && i !in acked;
    assert forall d, e, i {:trigger i in pel'[d], i in pel'[e]} |
      d in pel' && e in pel' && i in pel'[d] && i in pel'[e] :: d == e;
    forall i: nat | i < cursor + count && i !in acked ensures InSomePel(pel', i) {
      if i < cursor {
        assert InSomePel(pel, i);
        var d :| d in pel && i in pel[d];
        assert d in pel' && i in pel'[d];
      } else {
        assert c in pel' && i in pel'[c];
      }
    }
  }

  lemma {:induction false} AckKeepsGroup(
      n: nat, cursor: nat, pel: map<Consumer, set<nat>>, acked: set<nat>, c: Consumer, ids: set<nat>)
    requires GroupInv(n, cursor, pel, acked) && c in pel && ids <= pel[c] + acked
    ensures GroupInv(n, cursor, pel[c := pel[c] - ids], acked + ids)
  {
    var pel' := pel[c := pel[c] - ids];
    forall i: nat | i < cursor && i !in acked + ids ensures InSomePel(pel', i) {
      assert InSomePel(pel, i);
      var d :| d in pel && i in pel[d];
      assert d in pel' && i in pel'[d];
    }
  }

  // ---- StorePart: every upsert is one the audit asked for ----

  /** The payload of a delivered entry. */
  lemma {:induction false} EntryTaken(stream: seq<Payload>, cursor: nat, i: nat)
    requires i < cursor <= |stream|
    ensures stream[i] in Taken(stream, cursor)
  {
    assert stream[..cursor][i] == stream[i];
  }

  lemma {:induction false} UpsertForGrows(store: Store, phase: Phase, q: Payload, done: bool)
    requires Sound(store) && EntryInv(phase, done, q, store)
    ensures var t := UpsertFor(store, phase, q);
            Sound(t) && Grows(store, {q}, t) && EntryInv(phase, true, q, t)
  {
    match phase
    case Users => UpsertUserStep(store, q);
    case Orders(userIds) => UpsertOrderStep(store, q, userIds[q.email]);
    case Lines(orderIds) => UpsertLineStep(store, q);
    case Ack => GrowsRefl(store, {q});
  }

  /** The entry a worker is about to upsert was delivered to it. */
  lemma {:induction false} ActiveEntry(u: Setup, s: Sys, c: Consumer, i: nat)
    requires Holds(GroupPart, u, s) && Holds(WorkersPart, u, s) && InBusy(s, c) && i in s.workers[c].batch
    ensures i < s.cursor <= |s.stream|
    ensures EntryInv(s.workers[c].phase, i in s.workers[c].done, s.stream[i], s.store)
  {
    assert WorkerInv(s.workers[c], Own(s, c), s.stream, s.store);
    assert i in Own(s, c);
    assert GroupInv(|s.stream|, s.cursor, s.pel, s.acked);
    assert i < s.cursor;
  }

  lemma {:induction false} StrayEntry(u: Setup, s: Sys, x: Stray)
    requires Holds(GroupPart, u, s) && Holds(StraysPart, u, s) && x in s.strays
    ensures x.entry < s.cursor <= |s.stream| && EntryInv(x.phase, false, s.stream[x.entry], s.store)
  {
    assert StrayInv(s, x);
    assert x.entry in Own(s, x.c);
  }

  /** One upsert of a delivered entry, by its worker or stray. */
  lemma {:induction false} UpsertKeepsStore(u: Setup, s: Sys, phase: Phase, done: bool, i: nat)
    requires Holds(StorePart, u, s) && i < s.cursor && EntryInv(phase, done, s.stream[i], s.store)
    ensures var later := UpsertFor(s.store, phase, s.stream[i]);
            && Sound(later) && Grows(u.before, Taken(s.stream, s.cursor), later)
            && Grows(s.store, {s.stream[i]}, later) && EntryInv(phase, true, s.stream[i], later)
  {
    EntryTaken(s.stream, s.cursor, i);
    UpsertForGrows(s.store, phase, s.stream[i], done);
    GrowsWithin(u.before, Taken(s.stream, s.cursor), s.store, s.stream[i], UpsertFor(s.store, phase, s.stream[i]));
  }

  lemma {:induction false} GrowsWithin(s: Store, ps: set<Payload>, t: Store, q: Payload, later: Store)
    requires Grows(s, ps, t) && q in ps && Grows(t, {q}, later)
    ensures Grows(s, ps, later)
  {
    GrowsMono(t, {q}, ps, later);
    GrowsTrans(s, ps, t, later);
  }

  lemma {:induction false} TakenMono(stream: seq<Payload>, cursor: nat, stream': seq<Payload>, cursor': nat)
    requires cursor <= |stream| && stream <= stream' && cursor <= cursor' <= |stream'|
    ensures Taken(stream, cursor) <= Taken(stream', cursor')
  {
    forall q | q in Taken(stream, cursor) ensures q in Taken(stream', cursor') {
      var i :| 0 <= i < cursor && stream[..cursor][i] == q;
      EntryTaken(stream', cursor', i);
    }
  }

  lemma {:induction false} KeepsStore(u: Setup, s: Sys, step: Step)
    requires Enabled(s, step) && Inv(u, s)
    ensures Holds(StorePart, u, Apply(u, s, step))
  {
    assert Holds(StorePart, u, s);
    match step
    case Upsert(c, i) =>
      assert Holds(GroupPart, u, s) && Holds(WorkersPart, u, s);
      ActiveEntry(u, s, c, i);
      UpsertKeepsStore(u, s, s.workers[c].phase, i in s.workers[c].done, i);
    case StrayLands(x) =>
      assert Holds(GroupPart, u, s) && Holds(StraysPart, u, s);
      StrayEntry(u, s, x);
      UpsertKeepsStore(u, s, x.phase, false, x.entry);
    case Enqueue(_, _, _) => DeliveryKeepsStore(u, s, step);
    case ReadNew(_, _) => DeliveryKeepsStore(u, s, step);
    case _ =>
  }

  lemma {:induction false} DeliveryKeepsStore(u: Setup, s: Sys, step: Step)
    requires Enabled(s, step) && (step.Enqueue? || step.ReadNew?) && Holds(StorePart, u, s)
    ensures Holds(StorePart, u, Apply(u, s, step))
  {
    var t := Apply(u, s, step);
    TakenMono(s.stream, s.cursor, t.stream, t.cursor);
    GrowsMono(u.before, Taken(s.stream, s.cursor), Taken(t.stream, t.cursor), s.store);
  }

  // ---- WorkersPart and AckedPart: facts survive other workers' writes ----

  lemma {:induction false} EntryStays(
      phase: Phase, done: bool, q: Payload, store: Store, ps: set<Payload>, later: Store)
    requires EntryInv(phase, done, q, store) && Grows(store, ps, later)
    ensures EntryInv(phase, done, q, later)
  {
    if phase.Ack? || (phase.Lines? && done) {
      RecordedStays(store, ps, later, q);
    }
  }

  lemma {:induction false} WorkerStays(
      w: Worker, own: set<nat>, stream: seq<Payload>, store: Store,
      own': set<nat>, stream': seq<Payload>, ps: set<Payload>, store': Store)
    requires WorkerInv(w, own, stream, store)
    requires own <= own' && stream <= stream' && Grows(store, ps, store')
    ensures WorkerInv(w, own', stream', store')
  {
    if w.Busy? {
      forall i | i in w.batch ensures i < |stream'| && EntryInv(w.phase, i in w.done, stream'[i], store') {
        EntryStays(w.phase, i in w.done, stream[i], store, ps, store');
      }
    }
  }

  lemma {:induction false} PhaseAdvances(u: Setup, stream: seq<Payload>, store: Store, w: Worker, own: set<nat>)
    requires OneEntryEach(u, stream) && WorkerInv(w, own, stream, store)
    requires w.Busy? && forall i | i in w.batch :: i in w.done
    ensures WorkerInv(Busy(w.batch, NextPhase(store, w.phase, Payloads(stream, w.batch)), {}), own, stream, store)
  {
    var b := Payloads(stream, w.batch);
    var next := NextPhase(store, w.phase, b);
    forall i | i in w.batch ensures EntryInv(next, false, stream[i], store) {
      assert EntryInv(w.phase, true, stream[i], store);
      BatchPayload(stream, w.batch, i);
      if w.phase.Orders? {
        OneSaleBatch(u, stream, w.batch);
        ResolvesRightOrder(store, b, SaleOrder(b), stream[i]);
      }
    }
  }

  lemma {:induction false} BatchPayload(stream: seq<Payload>, batch: seq<nat>, i: nat)
    requires i in batch && forall j | j in batch :: j < |stream|
    ensures stream[i] in Payloads(stream, batch)
  {
    var j :| 0 <= j < |batch| && batch[j] == i;
    assert Payloads(stream, batch)[j] == stream[i];
  }

  /** One sale in the stream, so the map keyed by email only is unambiguous. */
  lemma {:induction false} OneSaleBatch(u: Setup, stream: seq<Payload>, batch: seq<nat>)
    requires OneEntryEach(u, stream) && forall j | j in batch :: j < |stream|
    ensures OneSalePerEmail(Payloads(stream, batch))
  {
    forall q | q in Payloads(stream, batch) ensures q.saleId == u.saleId {
      var j :| 0 <= j < |batch| && Payloads(stream, batch)[j] == q;
      assert batch[j] in batch && stream[batch[j]].saleId == u.saleId;
    }
  }

  /** After its own upsert the worker knows one more entry is done. */
  lemma {:induction false} UpsertKeepsWorker(
      w: Worker, own: set<nat>, stream: seq<Payload>, store: Store, i: nat, store': Store)
    requires WorkerInv(w, own, stream, store) && w.Busy? && i in w.batch
    requires Grows(store, {stream[i]}, store') && EntryInv(w.phase, true, stream[i], store')
    ensures WorkerInv(w.(done := w.done + {i}), own, stream, store')
  {
    forall j | j in w.batch ensures EntryInv(w.phase, j in w.done + {i}, stream[j], store') {
      if j != i {
        EntryStays(w.phase, j in w.done, stream[j], store, {stream[i]}, store');
      }
    }
  }

  /** The payload a step writes, if it writes. */
  function Written(s: Sys, step: Step): set<Payload>
    requires Enabled(s, step)
  {
    match step
    case Upsert(_, i) => {s.stream[i]}
    case StrayLands(x) => if x.phase.Ack? then {} else {s.stream[x.entry]}
    case _ => {}
  }

  lemma {:induction false} WorkerUpsertGrows(u: Setup, s: Sys, c: Consumer, i: nat)
    requires Enabled(s, Upsert(c, i)) && Inv(u, s)
    ensures Grows(s.store, {s.stream[i]}, UpsertFor(s.store, s.workers[c].phase, s.stream[i]))
  {
    assert Holds(GroupPart, u, s) && Holds(WorkersPart, u, s) && Holds(StorePart, u, s);
    ActiveEntry(u, s, c, i);
    UpsertKeepsStore(u, s, s.workers[c].phase, i in s.workers[c].done, i);
  }

  lemma {:induction false} StrayUpsertGrows(u: Setup, s: Sys, x: Stray)
    requires Enabled(s, StrayLands(x)) && Inv(u, s)
    ensures Grows(s.store, {s.stream[x.entry]}, UpsertFor(s.store, x.phase, s.stream[x.entry]))
    ensures Grows(s.store, {}, s.store)
  {
    GrowsRefl(s.store, {});
    assert Holds(GroupPart, u, s) && Holds(StraysPart, u, s) && Holds(StorePart, u, s);
    StrayEntry(u, s, x);
    UpsertKeepsStore(u, s, x.phase, false, x.entry);
  }

  /** Whatever a step does, stream and store grow and nobody loses what it was
      delivered. */
  lemma {:induction false} StepGrows(u: Setup, s: Sys, step: Step)
    requires Enabled(s, step) && Inv(u, s)
    ensures var t := Apply(u, s, step);
            && s.stream <= t.stream && s.acked <= t.acked && s.pel.Keys == t.pel.Keys
            && Grows(s.store, Written(s, step), t.store)
  {
    match step
    case Upsert(c, i) => WorkerUpsertGrows(u, s, c, i);
    case StrayLands(x) => StrayUpsertGrows(u, s, x);
    case _ => GrowsRefl(s.store, {});
  }

  lemma {:induction false} OwnGrows(u: Setup, s: Sys, step: Step, c: Consumer)
    requires Enabled(s, step) && c in s.pel
    ensures c in Apply(u, s, step).pel && Own(s, c) <= Own(Apply(u, s, step), c)
  {
  }

  lemma {:induction false} KeepsWorkers(u: Setup, s: Sys, step: Step)
    requires Enabled(s, step) && Inv(u, s)
    ensures Holds(WorkersPart, u, Apply(u, s, step))
  {
    var t := Apply(u, s, step);
    assert Holds(WorkersPart, u, s);
    StepGrows(u, s, step);
    forall c | c in t.workers ensures WorkerInv(t.workers[c], Own(t, c), t.stream, t.store) {
      if t.workers[c] == s.workers[c] {
        OwnGrows(u, s, step, c);
        assert WorkerInv(s.workers[c], Own(s, c), s.stream, s.store);
        WorkerStays(s.workers[c], Own(s, c), s.stream, s.store, Own(t, c), t.stream, Written(s, step), t.store);
      } else {
        OwnWorkerKept(u, s, step, c);
      }
    }
  }

  /** The acting worker, if it is still busy. */
  lemma {:induction false} OwnWorkerKept(u: Setup, s: Sys, step: Step, c: Consumer)
    requires Enabled(s, step) && Inv(u, s) && c in s.workers && c in s.pel
    requires Apply(u, s, step).workers[c] != s.workers[c]
    ensures var t := Apply(u, s, step); c in t.pel && WorkerInv(t.workers[c], Own(t, c), t.stream, t.store)
  {
    match step
    case ReadPending(_, batch) => assert Holds(GroupPart, u, s);
    case ReadNew(_, _) => assert Holds(GroupPart, u, s);
    case Upsert(_, i) => OwnUpsertKept(u, s, c, i);
    case PhaseDone(_) =>
      assert Holds(BuyersPart, u, s) && Holds(WorkersPart, u, s);
      assert WorkerInv(s.workers[c], Own(s, c), s.stream, s.store);
      PhaseAdvances(u, s.stream, s.store, s.workers[c], Own(s, c));
    case _ =>
  }

  lemma {:induction false} OwnUpsertKept(u: Setup, s: Sys, c: Consumer, i: nat)
    requires Enabled(s, Upsert(c, i)) && Inv(u, s)
    ensures var t := Apply(u, s, Upsert(c, i)); WorkerInv(t.workers[c], Own(t, c), t.stream, t.store)
  {
    var w := s.workers[c];
    assert Holds(GroupPart, u, s) && Holds(StorePart, u, s) && Holds(WorkersPart, u, s);
    ActiveEntry(u, s, c, i);
    UpsertKeepsStore(u, s, w.phase, i in w.done, i);
    assert WorkerInv(w, Own(s, c), s.stream, s.store);
    UpsertKeepsWorker(w, Own(s, c), s.stream, s.store, i, UpsertFor(s.store, w.phase, s.stream[i]));
  }

  lemma {:induction false} KeepsStrays(u: Setup, s: Sys, step: Step)
    requires Enabled(s, step) && Inv(u, s)
    ensures Holds(StraysPart, u, Apply(u, s, step))
  {
    var t := Apply(u, s, step);
    assert Holds(StraysPart, u, s);
    StepGrows(u, s, step);
    forall x | x in t.strays ensures StrayInv(t, x) {
      if x in s.strays {
        assert StrayInv(s, x);
        OwnGrows(u, s, step, x.c);
        EntryStays(x.phase, false, s.stream[x.entry], s.store, Written(s, step), t.store);
      } else {
        assert Holds(WorkersPart, u, s);
        assert WorkerInv(s.workers[step.c], Own(s, step.c), s.stream, s.store);
      }
    }
  }

  lemma {:induction false} KeepsAcked(u: Setup, s: Sys, step: Step)
    requires Enabled(s, step) && Inv(u, s)
    ensures Holds(AckedPart, u, Apply(u, s, step))
  {
    var t := Apply(u, s, step);
    assert Holds(AckedPart, u, s);
    StepGrows(u, s, step);
    forall i | i in t.acked ensures i < |t.stream| && Recorded(t.store, t.stream[i]) {
      if i in s.acked {
        RecordedStays(s.store, Written(s, step), t.store, s.stream[i]);
      } else {
        NewlyAcked(u, s, step, i);
      }
    }
  }

  lemma {:induction false} NewlyAcked(u: Setup, s: Sys, step: Step, i: nat)
    requires Enabled(s, step) && Inv(u, s) && i !in s.acked && i in Apply(u, s, step).acked
    ensures i < |s.stream| && Recorded(s.store, s.stream[i]) && Apply(u, s, step).store == s.store
    ensures Apply(u, s, step).stream == s.stream
  {
    assert Holds(WorkersPart, u, s) && Holds(StraysPart, u, s);
    match step
    case AckRuns(c) => assert WorkerInv(s.workers[c], Own(s, c), s.stream, s.store);
    case StrayLands(x) => assert StrayInv(s, x);
  }

  lemma {:induction false} StepInv(u: Setup, s: Sys, step: Step)
    requires Enabled(s, step) && Inv(u, s)
    ensures Inv(u, Apply(u, s, step))
  {
    forall part ensures Holds(part, u, Apply(u, s, step)) {
      assert Holds(part, u, s);
      match part
      case DecisionPart => KeepsDecision(u, s, step);
      case BuyersPart => KeepsBuyers(u, s, step);
      case GroupPart =>
        assert Holds(WorkersPart, u, s) && Holds(StraysPart, u, s);
        KeepsGroup(u, s, step);
      case StorePart => KeepsStore(u, s, step);
      case WorkersPart => KeepsWorkers(u, s, step);
      case StraysPart => KeepsStrays(u, s, step);
      case AckedPart => KeepsAcked(u, s, step);
    }
  }

  // ---- runs ----

  ghost predicate ValidRun(u: Setup, s: Sys, steps: seq<Step>)
    decreases |steps|
  {
    steps != [] ==> Enabled(s, steps[0]) && ValidRun(u, Apply(u, s, steps[0]), steps[1..])
  }

  ghost function After(u: Setup, s: Sys, steps: seq<Step>): Sys
    requires ValidRun(u, s, steps)
    decreases |steps|
  {
    if steps == [] then s else After(u, Apply(u, s, steps[0]), steps[1..])
  }

  lemma {:induction false} RunInv(u: Setup, s: Sys, steps: seq<Step>)
    requires Inv(u, s) && ValidRun(u, s, steps)
    ensures Inv(u, After(u, s, steps))
    decreases |steps|
  {
    if steps != [] {
      StepInv(u, s, steps[0]);
      RunInv(u, Apply(u, s, steps[0]), steps[1..]);
    }
  }

  ghost predicate Reachable(u: Setup, s: Sys) {
    ValidSetup(u) && exists s0, steps :: Init(u, s0) && ValidRun(u, s0, steps) && After(u, s0, steps) == s
  }

  lemma {:induction false} ReachableInv(u: Setup, s: Sys)
    requires Reachable(u, s)
    ensures Inv(u, s)
  {
    var s0, steps :| Init(u, s0) && ValidRun(u, s0, steps) && After(u, s0, steps) == s;
    InitInv(u, s0);
    RunInv(u, s0, steps);
  }

  ghost predicate Later(u: Setup, s: Sys, t: Sys) {
    exists steps :: ValidRun(u, s, steps) && After(u, s, steps) == t
  }

  lemma {:induction false} LaterSame(u: Setup, s: Sys)
    ensures Later(u, s, s)
  {
    assert ValidRun(u, s, []) && After(u, s, []) == s;
  }

  lemma {:induction false} BuyersGrow(u: Setup, s: Sys, step: Step)
    requires Enabled(s, step) && Holds(DecisionPart, u, s)
    ensures s.sale.buyers <= Apply(u, s, step).sale.buyers
  {
    if step.Attempt? {
      DecideConserves(s.sale, step.email);
    }
  }

  lemma {:induction false} RunGrows(u: Setup, s: Sys, steps: seq<Step>)
    requires Inv(u, s) && ValidRun(u, s, steps)
    ensures var t := After(u, s, steps);
            && Inv(u, t) && s.sale.buyers <= t.sale.buyers
            && (forall k | k in s.store.orders :: k in t.store.orders)
    decreases |steps|
  {
    if steps != [] {
      assert Holds(DecisionPart, u, s);
      BuyersGrow(u, s, steps[0]);
      StepGrows(u, s, steps[0]);
      StepInv(u, s, steps[0]);
      RunGrows(u, Apply(u, s, steps[0]), steps[1..]);
    }
  }

  lemma {:induction false} RunConcat(u: Setup, s: Sys, steps: seq<Step>, more: seq<Step>)
    requires ValidRun(u, s, steps) && ValidRun(u, After(u, s, steps), more)
    ensures ValidRun(u, s, steps + more)
    ensures After(u, s, steps + more) == After(u, After(u, s, steps), more)
    decreases |steps|
  {
    if steps == [] {
      assert steps + more == more;
    } else {
      RunConcat(u, Apply(u, s, steps[0]), steps[1..], more);
      assert (steps + more)[1..] == steps[1..] + more;
    }
  }

  /** No buyer and no order goes away. */
  lemma {:induction false} LaterGrows(u: Setup, s: Sys, t: Sys)
    requires Reachable(u, s) && Later(u, s, t)
    ensures Reachable(u, t) && s.sale.buyers <= t.sale.buyers
    ensures OrderEmails(s.store, u.saleId) <= OrderEmails(t.store, u.saleId)
  {
    var s0, steps :| Init(u, s0) && ValidRun(u, s0, steps) && After(u, s0, steps) == s;
    var more :| ValidRun(u, s, more) && After(u, s, more) == t;
    ReachableInv(u, s);
    RunGrows(u, s, more);
    RunConcat(u, s0, steps, more);
  }

  // ---- what every reachable state guarantees ----

  predicate Undelivered(s: Sys, i: nat) {
    i >= s.cursor
  }

  /** Each entry is exactly one of undelivered, pending with one consumer, acked. */
  lemma {:induction false} EachEntryInOnePlace(u: Setup, s: Sys, i: nat)
    requires Reachable(u, s) && i < |s.stream|
    ensures Undelivered(s, i) ==> !InSomePel(s.pel, i) && i !in s.acked
    ensures InSomePel(s.pel, i) ==> i !in s.acked
    ensures Undelivered(s, i) || InSomePel(s.pel, i) || i in s.acked
    ensures forall c, d {:trigger i in s.pel[c], i in s.pel[d]} ::
              c in s.pel && d in s.pel && i in s.pel[c] && i in s.pel[d] ==> c == d
  {
    ReachableInv(u, s);
    assert Holds(GroupPart, u, s);
  }

  /** The step is taken by consumer `c`, or was sent by it. */
  predicate By(step: Step, c: Consumer) {
    match step
    case ReadPending(d, _) => c == d
    case ReadNew(d, _) => c == d
    case Upsert(d, _) => c == d
    case PhaseDone(d) => c == d
    case AckRuns(d) => c == d
    case Abandon(d) => c == d
    case StrayLands(x) => c == x.c
    case _ => false
  }

  /** Nobody claims another consumer's pending entries: without a worker under the
      same id, or an XACK such a worker had sent, they stay pending, whatever
      everybody else does. */
  lemma {:induction false} PendingWaitsForItsConsumer(u: Setup, s: Sys, steps: seq<Step>, c: Consumer)
    requires c in s.pel && ValidRun(u, s, steps)
    requires forall k | 0 <= k < |steps| :: !By(steps[k], c)
    ensures c in After(u, s, steps).pel && After(u, s, steps).pel[c] == s.pel[c]
    decreases |steps|
  {
    if steps != [] {
      PendingWaitsForItsConsumer(u, Apply(u, s, steps[0]), steps[1..], c);
    }
  }

  /** What each fault costs: an accepted order whose reply or XADD is lost, or that was
      only in the memory of a process that died, is never queued; a worker that gives
      up keeps its batch pending and leaves behind whatever had not been confirmed. */
  lemma {:induction false} FaultsCost(u: Setup, s: Sys, step: Step)
    requires Enabled(s, step)
    ensures var t := Apply(u, s, step);
            && (step.Attempt? && t.sale.buyers != s.sale.buyers ==>
                  && (step.email in t.outbox <==> step.replied || step.email in s.outbox)
                  && (step.email in t.lost <==> !step.replied || step.email in s.lost))
            && (step.EnqueueFails? ==> step.email in t.lost && step.email !in t.outbox && t.stream == s.stream)
            && (step.ApiCrash? ==> t.outbox == {} && t.lost == s.lost + s.outbox && t.stream == s.stream)
            && (step.Abandon? ==>
                  && t.workers[step.c].Idle? && t.pel == s.pel && t.store == s.store
                  && forall i | i in s.workers[step.c].batch && i !in s.workers[step.c].done ::
                       Stray(step.c, s.workers[step.c].phase, i) in t.strays)
            && (step.StrayLands? ==> step.stray in t.strays && t.workers == s.workers)
  {
  }

  /** A stray that lands takes full effect: the entry is acked, or its upsert has done
      what its worker sent it for. */
  lemma {:induction false} StrayTakesEffect(u: Setup, s: Sys, x: Stray)
    requires Reachable(u, s) && Enabled(s, StrayLands(x))
    ensures var t := Apply(u, s, StrayLands(x));
            && t.stream == s.stream && EntryInv(x.phase, true, t.stream[x.entry], t.store)
            && (x.phase.Ack? ==> x.entry in t.acked && x.entry !in t.pel[x.c])
  {
    ReachableInv(u, s);
    assert Holds(GroupPart, u, s) && Holds(StraysPart, u, s) && Holds(StorePart, u, s);
    StrayEntry(u, s, x);
    UpsertKeepsStore(u, s, x.phase, false, x.entry);
  }

  /** An entry whose payload is recorded has its order, owned by its user, and
      one line document in all: quantity 1 at the carried price. */
  ghost predicate RecordedOnce(store: Store, q: Payload) {
    && q.email in store.users && q.Key() in store.orders
    && store.orders[q.Key()].userId == store.users[q.email]
    && LineDocs(store, q.Key(), q.productId) == [LineDoc(1, q.price)]
    && forall p | p != q.productId :: LineDocs(store, q.Key(), p) == []
  }

  lemma {:induction false} AckedIsRecordedOnce(u: Setup, s: Sys, i: nat)
    requires Reachable(u, s) && i in s.acked
    ensures i < |s.stream| && RecordedOnce(s.store, s.stream[i])
  {
    ReachableInv(u, s);
    assert Holds(AckedPart, u, s);
    EntryRecordedOnce(u, s, i);
  }

  lemma {:induction false} EntryRecordedOnce(u: Setup, s: Sys, i: nat)
    requires ValidSetup(u) && Inv(u, s) && i < |s.stream| && Recorded(s.store, s.stream[i])
    ensures RecordedOnce(s.store, s.stream[i])
  {
    var q := s.stream[i];
    forall p ensures LineDocs(s.store, q.Key(), p) != [] ==>
                     p == q.productId && LineDocs(s.store, q.Key(), p) == [LineDoc(1, q.price)] {
      if LineDocs(s.store, q.Key(), p) != [] {
        LinesComeFromTheEntry(u, s, i, p);
      }
    }
    assert Holds(StorePart, u, s);
  }

  lemma {:induction false} LinesComeFromTheEntry(u: Setup, s: Sys, i: nat, p: ProductId)
    requires ValidSetup(u) && Inv(u, s) && i < |s.stream| && LineDocs(s.store, s.stream[i].Key(), p) != []
    ensures p == s.stream[i].productId && LineDocs(s.store, s.stream[i].Key(), p) == [LineDoc(1, s.stream[i].price)]
  {
    assert Holds(BuyersPart, u, s);
    assert s.stream[i].saleId == u.saleId && s.stream[i].Key() !in u.before.orders;
    assert s.cursor <= |s.stream| && Grows(u.before, Taken(s.stream, s.cursor), s.store) by {
      assert Holds(StorePart, u, s);
    }
    NewLineHasEntry(u.before, s.stream, s.cursor, s.store, s.stream[i].Key(), p);
    var j :| 0 <= j < s.cursor && Asks(s.stream[j], s.stream[i].Key(), p)
             && LineDocs(s.store, s.stream[i].Key(), p) == [LineDoc(1, s.stream[j].price)];
    SameEmailSameEntry(u, s.stream, i, j);
  }

  lemma {:induction false} SameEmailSameEntry(u: Setup, stream: seq<Payload>, i: nat, j: nat)
    requires OneEntryEach(u, stream) && i < |stream| && j < |stream| && stream[i].email == stream[j].email
    ensures i == j
  {
  }

  lemma {:induction false} NewLineHasEntry(
      before: Store, stream: seq<Payload>, cursor: nat, store: Store, k: OrderKey, p: ProductId)
    requires cursor <= |stream| && Grows(before, Taken(stream, cursor), store)
    requires k !in before.orders && LineDocs(store, k, p) != []
    ensures exists j ::
              0 <= j < cursor && Asks(stream[j], k, p) && LineDocs(store, k, p) == [LineDoc(1, stream[j].price)]
  {
    assert LinesGrow(before, Taken(stream, cursor), store, k, p);
    var q :| q in Taken(stream, cursor) && Asks(q, k, p) && LineDocs(store, k, p) == [LineDoc(1, q.price)];
    var j :| 0 <= j < cursor && stream[..cursor][j] == q;
    assert Asks(stream[j], k, p);
  }

  /** MongoDB never holds an order Redis did not accept. */
  lemma {:induction false} OrdersAreBuyers(u: Setup, s: Sys, k: OrderKey)
    requires Reachable(u, s) && k in s.store.orders && k.saleId == u.saleId
    ensures k.email in s.sale.buyers
  {
    ReachableInv(u, s);
    OrderHasEntry(u, s, k);
    assert Holds(BuyersPart, u, s);
  }

  lemma {:induction false} OrderHasEntry(u: Setup, s: Sys, k: OrderKey)
    requires ValidSetup(u) && Inv(u, s) && k in s.store.orders && k.saleId == u.saleId
    ensures k.email in StreamEmails(s.stream)
  {
    assert Holds(StorePart, u, s);
    assert AsksOrder(Taken(s.stream, s.cursor), k);
    var q :| q in Taken(s.stream, s.cursor) && q.Key() == k;
    assert q in s.stream[..s.cursor] && q in s.stream;
  }

  function OrderEmails(store: Store, sale: SaleId): set<Email> {
    set k | k in store.orders && k.saleId == sale :: k.email
  }

  /** End to end: confirmed orders never exceed the stock the sale started with. */
  lemma {:induction false} NoOversellInMongo(u: Setup, s: Sys)
    requires Reachable(u, s)
    ensures |OrderEmails(s.store, u.saleId)| <= |s.sale.buyers| <= u.stock
  {
    forall e | e in OrderEmails(s.store, u.saleId) ensures e in s.sale.buyers {
      OrdersAreBuyers(u, s, OrderKey(u.saleId, e));
    }
    SubsetSize(OrderEmails(s.store, u.saleId), s.sale.buyers);
    ReachableInv(u, s);
    assert Holds(DecisionPart, u, s);
  }

  lemma {:induction false} SubsetSize<T>(a: set<T>, b: set<T>)
    requires a <= b
    ensures |b - a| == |b| - |a| && |a| <= |b|
  {
    assert b == a + (b - a);
  }

  /** Nothing waiting, nothing undelivered, nothing pending. */
  predicate Drained(s: Sys) {
    s.outbox == {} && s.cursor == |s.stream| && forall c | c in s.pel :: s.pel[c] == {}
  }

  /** Once drained, the audit is every buyer but the ones the API lost between
      the verdict and XADD: the undercount is exactly their number. */
  lemma {:induction false} DrainedAuditIsExact(u: Setup, s: Sys)
    requires Reachable(u, s) && Drained(s)
    ensures OrderEmails(s.store, u.saleId) == s.sale.buyers - s.lost
    ensures |OrderEmails(s.store, u.saleId)| == |s.sale.buyers| - |s.lost|
    ensures forall i | 0 <= i < |s.stream| :: RecordedOnce(s.store, s.stream[i])
  {
    ReachableInv(u, s);
    forall i | 0 <= i < |s.stream| ensures RecordedOnce(s.store, s.stream[i]) {
      EachEntryInOnePlace(u, s, i);
      AckedIsRecordedOnce(u, s, i);
    }
    assert OrderEmails(s.store, u.saleId) == StreamEmails(s.stream) by {
      DrainedEmails(u, s);
    }
    assert Holds(BuyersPart, u, s);
    SubsetSize(s.lost, s.sale.buyers);
    assert s.sale.buyers - s.lost == StreamEmails(s.stream);
  }

  lemma {:induction false} DrainedEmails(u: Setup, s: Sys)
    requires ValidSetup(u) && Inv(u, s)
    requires forall i | 0 <= i < |s.stream| :: RecordedOnce(s.store, s.stream[i])
    ensures OrderEmails(s.store, u.saleId) == StreamEmails(s.stream)
  {
    forall e | e in OrderEmails(s.store, u.saleId) ensures e in StreamEmails(s.stream) {
      OrderHasEntry(u, s, OrderKey(u.saleId, e));
    }
    forall e | e in StreamEmails(s.stream) ensures e in OrderEmails(s.store, u.saleId) {
      var q :| q in s.stream && q.email == e;
      var i :| 0 <= i < |s.stream| && s.stream[i] == q;
      assert Holds(BuyersPart, u, s);
      assert s.stream[i].saleId == u.saleId && RecordedOnce(s.store, s.stream[i]);
    }
  }
}

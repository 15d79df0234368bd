/**
 The batched audit write (server/src/adapters/mongo/bulk-audit.ts), phase by
 phase, with cuts, retries and any order of its upserts.
 */
module BulkAudit {
  import opened Ids
  import opened AuditStore

  function PayloadSet(b: seq<Payload>): set<Payload> {
    set q | q in b
  }

  /** No email appears under two sales in one batch. */
  ghost predicate OneSalePerEmail(b: seq<Payload>) {
    forall q, r | q in b && r in b && q.email == r.email :: q.saleId == r.saleId
  }

  // ---- the phases, each over the upserts of `c` in the order they were applied ----

  function UpsertUsers(s: Store, c: seq<Payload>): (t: Store)
    ensures forall q | q in c :: q.email in t.users
    ensures forall e | e in s.users :: e in t.users
  {
    if c == [] then s
    else UpsertUser(UpsertUsers(s, c[..|c| - 1]), c[|c| - 1].email)
  }

  function ResolveUsers(s: Store, b: seq<Payload>): map<Email, nat> {
    map e | e in (set q | q in b :: q.email) && e in s.users :: s.users[e]
  }

  function UpsertOrders(s: Store, c: seq<Payload>, userIds: map<Email, nat>): (t: Store)
    requires forall q | q in c :: q.email in userIds
    ensures forall q | q in c :: q.Key() in t.orders
  {
    if c == [] then s
    else
      var q := c[|c| - 1];
      UpsertOrder(UpsertOrders(s, c[..|c| - 1], userIds), q.Key(), userIds[q.email])
  }

  /** The distinct sales of a batch, by first occurrence. */
  function SaleOrder(b: seq<Payload>): (r: seq<SaleId>)
    ensures forall q | q in b :: q.saleId in r
  {
    if b == [] then []
    else
      var r := SaleOrder(b[..|b| - 1]);
      if b[|b| - 1].saleId in r then r else r + [b[|b| - 1].saleId]
  }

  function EmailsUnder(b: seq<Payload>, sale: SaleId): set<Email> {
    set q | q in b && q.saleId == sale :: q.email
  }

  /** One sub-query: the orders of one sale for the emails grouped under it. */
  function OrdersUnder(s: Store, b: seq<Payload>, sale: SaleId): map<Email, nat> {
    map e | e in EmailsUnder(b, sale) && OrderKey(sale, e) in s.orders :: s.orders[OrderKey(sale, e)].id
  }

  /** The sub-query results flattened into one map keyed by email only: where an
      email has orders under several sales, the last sale wins. */
  function ResolveOrders(s: Store, b: seq<Payload>, sales: seq<SaleId>): map<Email, nat> {
    if sales == [] then map[]
    else ResolveOrders(s, b, sales[..|sales| - 1]) + OrdersUnder(s, b, sales[|sales| - 1])
  }

  function UpsertLines(s: Store, c: seq<Payload>, orderIds: map<Email, nat>): (t: Store) {
    if c == [] then s
    else
      var q := c[|c| - 1];
      var t := UpsertLines(s, c[..|c| - 1], orderIds);
      if q.email in orderIds then UpsertLine(t, LineRef(orderIds[q.email], q.productId), q.price) else t
  }

  // ---- a bulk write stopped anywhere ----

  /** How far a bulk write got. Completed phases list every payload, in whatever
      order the server applied the unordered upserts; the phase it stopped in
      lists the ones that took effect. */
  datatype Cut =
    | InUsers(done: seq<Payload>)
    | InOrders(users: seq<Payload>, done: seq<Payload>)
    | InLines(users: seq<Payload>, orders: seq<Payload>, done: seq<Payload>)

  predicate ValidCut(b: seq<Payload>, cut: Cut) {
    && PayloadSet(cut.done) <= PayloadSet(b)
    && (!cut.InUsers? ==> PayloadSet(cut.users) == PayloadSet(b))
    && (cut.InLines? ==> PayloadSet(cut.orders) == PayloadSet(b))
  }

  function Stopped(s: Store, b: seq<Payload>, cut: Cut): Store
    requires ValidCut(b, cut)
  {
    match cut
    case InUsers(done) => UpsertUsers(s, done)
    case InOrders(users, done) => AfterOrders(s, b, users, done)
    case InLines(users, orders, done) =>
      var t := AfterOrders(s, b, users, orders);
      UpsertLines(t, done, ResolveOrders(t, b, SaleOrder(b)))
  }

  function AfterOrders(s: Store, b: seq<Payload>, users: seq<Payload>, done: seq<Payload>): Store
    requires PayloadSet(users) == PayloadSet(b) && PayloadSet(done) <= PayloadSet(b)
  {
    var t := UpsertUsers(s, users);
    assert forall q | q in done :: q in PayloadSet(done) && q in PayloadSet(users);
    UpsertOrders(t, done, ResolveUsers(t, b))
  }

  /** An undisturbed bulk write. */
  function Bulk(s: Store, b: seq<Payload>): Store {
    if b == [] then s else Stopped(s, b, InLines(b, b, b))
  }

  // ---- each phase grows a sound store ----

  lemma {:induction false} UsersPhase(s: Store, c: seq<Payload>, ps: set<Payload>)
    requires Sound(s) && PayloadSet(c) <= ps
    ensures Sound(UpsertUsers(s, c)) && Grows(s, ps, UpsertUsers(s, c))
  {
    if c == [] {
      GrowsRefl(s, ps);
    } else {
      var q, t := c[|c| - 1], UpsertUsers(s, c[..|c| - 1]);
      assert q in PayloadSet(c);
      UsersPhase(s, c[..|c| - 1], ps);
      UpsertUserStep(t, q);
      GrowsMono(t, {q}, ps, UpsertUser(t, q.email));
      GrowsTrans(s, ps, t, UpsertUser(t, q.email));
    }
  }

  lemma {:induction false} OrdersPhase(s: Store, c: seq<Payload>, userIds: map<Email, nat>, ps: set<Payload>)
    requires Sound(s) && PayloadSet(c) <= ps
    requires forall q | q in c :: q.email in userIds && q.email in s.users && userIds[q.email] == s.users[q.email]
    ensures Sound(UpsertOrders(s, c, userIds)) && Grows(s, ps, UpsertOrders(s, c, userIds))
  {
    if c == [] {
      GrowsRefl(s, ps);
    } else {
      var q, t := c[|c| - 1], UpsertOrders(s, c[..|c| - 1], userIds);
      assert q in PayloadSet(c);
      OrdersPhase(s, c[..|c| - 1], userIds, ps);
      UpsertOrderStep(t, q, userIds[q.email]);
      GrowsMono(t, {q}, ps, UpsertOrder(t, q.Key(), userIds[q.email]));
      GrowsTrans(s, ps, t, UpsertOrder(t, q.Key(), userIds[q.email]));
    }
  }

  ghost predicate RightOrder(s: Store, q: Payload, orderIds: map<Email, nat>) {
    q.Key() in s.orders && q.email in orderIds && orderIds[q.email] == s.orders[q.Key()].id
  }

  lemma {:induction false} LinesPhase(s: Store, c: seq<Payload>, orderIds: map<Email, nat>, ps: set<Payload>)
    requires Sound(s) && PayloadSet(c) <= ps
    requires forall q | q in c :: RightOrder(s, q, orderIds)
    ensures var t := UpsertLines(s, c, orderIds);
            Sound(t) && Grows(s, ps, t) && forall q | q in c :: LineDocs(t, q.Key(), q.productId) != []
  {
    if c == [] {
      GrowsRefl(s, ps);
    } else {
      var q, t := c[|c| - 1], UpsertLines(s, c[..|c| - 1], orderIds);
      assert q in PayloadSet(c) && RightOrder(s, q, orderIds);
      LinesPhase(s, c[..|c| - 1], orderIds, ps);
      assert q.Key() in t.orders && t.orders[q.Key()] == s.orders[q.Key()];
      LastLine(s, t, q, c, ps);
    }
  }

  lemma {:induction false} LastLine(s: Store, t: Store, q: Payload, c: seq<Payload>, ps: set<Payload>)
    requires c != [] && q == c[|c| - 1] && q in ps
    requires Sound(t) && Grows(s, ps, t) && q.Key() in t.orders
    requires forall r | r in c[..|c| - 1] :: LineDocs(t, r.Key(), r.productId) != []
    ensures var u := UpsertLine(t, LineRef(t.orders[q.Key()].id, q.productId), q.price);
            Sound(u) && Grows(s, ps, u) && forall r | r in c :: LineDocs(u, r.Key(), r.productId) != []
  {
    var u := UpsertLine(t, LineRef(t.orders[q.Key()].id, q.productId), q.price);
    UpsertLineStep(t, q);
    GrowsMono(t, {q}, ps, u);
    GrowsTrans(s, ps, t, u);
    forall r | r in c ensures LineDocs(u, r.Key(), r.productId) != [] {
      assert r == q || r in c[..|c| - 1];
      assert LinesGrow(t, {q}, u, r.Key(), r.productId);
    }
  }

  // ---- phase 4 finds the right order when no email is under two sales ----

  lemma {:induction false} ResolvesRightOrder(s: Store, b: seq<Payload>, sales: seq<SaleId>, q: Payload)
    requires OneSalePerEmail(b) && q in b && q.Key() in s.orders
    ensures q.saleId in sales ==> RightOrder(s, q, ResolveOrders(s, b, sales))
    ensures q.saleId !in sales ==> q.email !in ResolveOrders(s, b, sales)
  {
    if sales != [] {
      var last := sales[|sales| - 1];
      ResolvesRightOrder(s, b, sales[..|sales| - 1], q);
      assert q.email in EmailsUnder(b, last) <==> q.saleId == last;
    }
  }

  // ---- the bulk write ----

  lemma {:induction false} AfterOrdersGrows(s: Store, b: seq<Payload>, users: seq<Payload>, done: seq<Payload>)
    requires Sound(s) && PayloadSet(users) == PayloadSet(b) && PayloadSet(done) <= PayloadSet(b)
    ensures var t := AfterOrders(s, b, users, done);
            Sound(t) && Grows(s, PayloadSet(b), t) && forall q | q in done :: q.email in t.users && q.Key() in t.orders
  {
    var ps, t := PayloadSet(b), UpsertUsers(s, users);
    assert forall q | q in done :: q in PayloadSet(done) && q in PayloadSet(users);
    UsersPhase(s, users, ps);
    OrdersPhase(t, done, ResolveUsers(t, b), ps);
    GrowsTrans(s, ps, t, AfterOrders(s, b, users, done));
  }

  /** Wherever a bulk write stops, the store is sound, nothing recorded before is
      touched, and everything new belongs to the batch. */
  lemma {:induction false} StoppedGrows(s: Store, b: seq<Payload>, cut: Cut)
    requires Sound(s) && OneSalePerEmail(b) && ValidCut(b, cut)
    ensures Sound(Stopped(s, b, cut)) && Grows(s, PayloadSet(b), Stopped(s, b, cut))
    ensures cut.InLines? && PayloadSet(cut.done) == PayloadSet(b) ==> Complete(Stopped(s, b, cut), PayloadSet(b))
  {
    match cut
    case InUsers(done) => UsersPhase(s, done, PayloadSet(b));
    case InOrders(users, done) => AfterOrdersGrows(s, b, users, done);
    case InLines(users, orders, done) =>
      AfterOrdersGrows(s, b, users, orders);
      StoppedInLines(s, AfterOrders(s, b, users, orders), b, orders, done);
  }

  lemma {:induction false} StoppedInLines(s: Store, t: Store, b: seq<Payload>, orders: seq<Payload>, done: seq<Payload>)
    requires Sound(t) && Grows(s, PayloadSet(b), t) && OneSalePerEmail(b)
    requires PayloadSet(orders) == PayloadSet(b) && PayloadSet(done) <= PayloadSet(b)
    requires forall q | q in orders :: q.email in t.users && q.Key() in t.orders
    ensures var u := UpsertLines(t, done, ResolveOrders(t, b, SaleOrder(b)));
            && Sound(u) && Grows(s, PayloadSet(b), u)
            && (PayloadSet(done) == PayloadSet(b) ==> Complete(u, PayloadSet(b)))
  {
    var ids := ResolveOrders(t, b, SaleOrder(b));
    var u := UpsertLines(t, done, ids);
    forall q | q in b ensures RightOrder(t, q, ids) && q.email in t.users {
      assert q in PayloadSet(b) && q in PayloadSet(orders);
      ResolvesRightOrder(t, b, SaleOrder(b), q);
    }
    assert forall q | q in done :: q in PayloadSet(done) && q in PayloadSet(b);
    LinesPhase(t, done, ids, PayloadSet(b));
    GrowsTrans(s, PayloadSet(b), t, u);
    if PayloadSet(done) == PayloadSet(b) {
      forall q | q in PayloadSet(b) ensures Recorded(u, q) {
        assert q in PayloadSet(done);
      }
    }
  }

  lemma {:induction false} BulkRecords(s: Store, b: seq<Payload>)
    requires Sound(s) && OneSalePerEmail(b)
    ensures Sound(Bulk(s, b)) && Records(s, PayloadSet(b), Bulk(s, b))
  {
    if b == [] {
      GrowsRefl(s, {});
    } else {
      StoppedGrows(s, b, InLines(b, b, b));
    }
  }

  // ---- at-least-once delivery, exactly-once effect ----

  /** One delivery of a batch, up to its cut. Deliveries follow one another here;
      `Pipeline` has those that overlap. */
  datatype Delivery = Delivery(batch: seq<Payload>, cut: Cut)

  /** All upserts of all phases took effect, in whatever order the server chose. */
  predicate CarriedThrough(d: Delivery) {
    ValidCut(d.batch, d.cut) && d.cut.InLines? && PayloadSet(d.cut.done) == PayloadSet(d.batch)
  }

  ghost predicate ValidDelivery(d: Delivery, ps: set<Payload>) {
    OneSalePerEmail(d.batch) && PayloadSet(d.batch) <= ps && ValidCut(d.batch, d.cut)
  }

  ghost predicate ValidHistory(ds: seq<Delivery>, ps: set<Payload>) {
    forall d | d in ds :: ValidDelivery(d, ps)
  }

  /** Every payload is in some delivery that was carried through. */
  ghost predicate Delivered(ds: seq<Delivery>, ps: set<Payload>) {
    forall q | q in ps :: exists d :: d in ds && CarriedThrough(d) && q in d.batch
  }

  function Deliver(s: Store, d: Delivery): Store
    requires ValidCut(d.batch, d.cut)
  {
    Stopped(s, d.batch, d.cut)
  }

  /** The bulk write of the process applies the upserts in payload order. */
  lemma {:induction false} BulkIsADelivery(s: Store, b: seq<Payload>)
    ensures var d := Delivery(b, InLines(b, b, b)); CarriedThrough(d) && Deliver(s, d) == Bulk(s, b)
  {
  }

  ghost function DeliverAll(s: Store, ds: seq<Delivery>, ps: set<Payload>): Store
    requires ValidHistory(ds, ps)
  {
    if ds == [] then s
    else
      var last := ds[|ds| - 1];
      assert ValidDelivery(last, ps);
      Deliver(DeliverAll(s, ds[..|ds| - 1], ps), last)
  }

  lemma {:induction false} DeliverGrows(s: Store, d: Delivery, ps: set<Payload>)
    requires Sound(s) && ValidDelivery(d, ps)
    ensures Sound(Deliver(s, d)) && Grows(s, ps, Deliver(s, d))
    ensures CarriedThrough(d) ==> Complete(Deliver(s, d), PayloadSet(d.batch))
  {
    StoppedGrows(s, d.batch, d.cut);
    GrowsMono(s, PayloadSet(d.batch), ps, Deliver(s, d));
  }

  /** Any history of deliveries, however split, repeated, reordered or cut short,
      in which each payload was carried through at least once leaves exactly the
      records of the payload set. */
  lemma {:induction false} DeliverAllGrows(s: Store, ds: seq<Delivery>, ps: set<Payload>)
    requires Sound(s) && ValidHistory(ds, ps)
    ensures Sound(DeliverAll(s, ds, ps)) && Grows(s, ps, DeliverAll(s, ds, ps))
    ensures Delivered(ds, ps) ==> Records(s, ps, DeliverAll(s, ds, ps))
  {
    if ds == [] {
      GrowsRefl(s, ps);
    } else {
      DeliverAllGrows(s, ds[..|ds| - 1], ps);
      var t := DeliverAll(s, ds[..|ds| - 1], ps);
      DeliverGrows(t, ds[|ds| - 1], ps);
      GrowsTrans(s, ps, t, DeliverAll(s, ds, ps));
    }
    forall q, d | d in ds && CarriedThrough(d) && q in d.batch ensures Recorded(DeliverAll(s, ds, ps), q) {
      DeliveredStays(s, ds, ps, d, q);
    }
  }

  lemma {:induction false} DeliveredStays(s: Store, ds: seq<Delivery>, ps: set<Payload>, d: Delivery, q: Payload)
    requires Sound(s) && ValidHistory(ds, ps)
    requires d in ds && CarriedThrough(d) && q in d.batch
    ensures Sound(DeliverAll(s, ds, ps)) && Recorded(DeliverAll(s, ds, ps), q)
  {
    var last, front := ds[|ds| - 1], ds[..|ds| - 1];
    HistorySound(s, front, ps);
    DeliverGrows(DeliverAll(s, front, ps), last, ps);
    if d == last {
      assert q in PayloadSet(d.batch);
    } else {
      DeliveredStays(s, front, ps, d, q);
      RecordedStays(DeliverAll(s, front, ps), ps, DeliverAll(s, ds, ps), q);
    }
  }

  lemma {:induction false} HistorySound(s: Store, ds: seq<Delivery>, ps: set<Payload>)
    requires Sound(s) && ValidHistory(ds, ps)
    ensures Sound(DeliverAll(s, ds, ps))
  {
    if ds != [] {
      HistorySound(s, ds[..|ds| - 1], ps);
      DeliverGrows(DeliverAll(s, ds[..|ds| - 1], ps), ds[|ds| - 1], ps);
    }
  }

  /** The contents depend on the payload set alone. */
  lemma {:induction false} ExactlyOnceEffect(s: Store, ps: set<Payload>, ds: seq<Delivery>, es: seq<Delivery>)
    requires Sound(s) && PricesAgree(ps)
    requires ValidHistory(ds, ps) && Delivered(ds, ps) && ValidHistory(es, ps) && Delivered(es, ps)
    ensures SameRecords(DeliverAll(s, ds, ps), DeliverAll(s, es, ps))
  {
    DeliverAllGrows(s, ds, ps);
    DeliverAllGrows(s, es, ps);
    RecordsDeterminesContents(s, ps, DeliverAll(s, ds, ps), DeliverAll(s, es, ps));
  }

  /** Re-running a bulk write after any number of interrupted tries leaves what one
      undisturbed run leaves, both in any order of their upserts. */
  lemma {:induction false} RetryConverges(
      s: Store, b: seq<Payload>, tries: seq<Delivery>, last: Delivery, once: Delivery)
    requires Sound(s) && OneSalePerEmail(b) && PricesAgree(PayloadSet(b))
    requires forall d | d in tries :: d.batch == b && ValidCut(b, d.cut)
    requires last.batch == b && once.batch == b && CarriedThrough(last) && CarriedThrough(once)
    ensures ValidHistory(tries, PayloadSet(b))
    ensures SameRecords(Deliver(DeliverAll(s, tries, PayloadSet(b)), last), Deliver(s, once))
  {
    var ps, ds := PayloadSet(b), tries + [last];
    assert ds[..|ds| - 1] == tries && ds[|ds| - 1] == last;
    assert forall q | q in ps :: last in ds && q in last.batch;
    assert forall q | q in ps :: once in [once] && q in once.batch;
    assert [once][..0] == [] && DeliverAll(s, [once][..0], ps) == s;
    ExactlyOnceEffect(s, ps, ds, [once]);
  }
}

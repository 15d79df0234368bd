/**
 The three MongoDB collections the audit writes, as one value, and the
 single-document upserts that are the only atomic steps on them.

 `users` and `orders` carry unique indexes, so they are maps. `orderlines` has
 none: it maps an (orderId, productId) filter to every document matching it,
 which keeps duplicate lines representable.
 */
module AuditStore {
  import opened Ids

  datatype OrderKey = OrderKey(saleId: SaleId, email: Email)

  datatype Order = Order(id: nat, userId: nat)

  datatype LineRef = LineRef(orderId: nat, productId: ProductId)

  datatype LineDoc = LineDoc(quantity: int, unitPrice: int)

  /** A queue payload, without the correlation id and timestamp no write uses. */
  datatype Payload = Payload(saleId: SaleId, productId: ProductId, email: Email, price: int) {
    function Key(): OrderKey {
      OrderKey(saleId, email)
    }
  }

  datatype Store = Store(
    users: map<Email, nat>,
    orders: map<OrderKey, Order>,
    lines: map<LineRef, seq<LineDoc>>,
    nextId: nat)

  const EMPTY := Store(map[], map[], map[], 0)

  /** The line documents filed under an order, found through its generated id. */
  function LineDocs(s: Store, k: OrderKey, p: ProductId): seq<LineDoc> {
    if k in s.orders && LineRef(s.orders[k].id, p) in s.lines
    then s.lines[LineRef(s.orders[k].id, p)]
    else []
  }

  /** Ids are unique and older than `nextId`, every foreign key resolves to its
      owner, and no (order, product) has two lines. */
  ghost predicate Sound(s: Store) {
    SoundUsers(s) && SoundOrders(s) && SoundLines(s)
  }

  ghost predicate SoundUsers(s: Store) {
    && (forall e, f | e in s.users && f in s.users && s.users[e] == s.users[f] :: e == f)
    && (forall e | e in s.users :: s.users[e] < s.nextId)
  }

  ghost predicate SoundOrders(s: Store) {
    && (forall k, l | k in s.orders && l in s.orders && s.orders[k].id == s.orders[l].id :: k == l)
    && (forall k | k in s.orders :: s.orders[k].id < s.nextId)
    && (forall k | k in s.orders :: k.email in s.users && s.orders[k].userId == s.users[k.email])
  }

  ghost predicate SoundLines(s: Store) {
    && (forall r | r in s.lines :: |s.lines[r]| == 1)
    && (forall r | r in s.lines :: HasOrder(s, r.orderId))
  }

  ghost predicate HasOrder(s: Store, id: nat) {
    exists k :: k in s.orders && s.orders[k].id == id
  }

  /** Equal by natural key, whatever ids the two histories generated. */
  ghost predicate SameRecords(s: Store, t: Store) {
    && s.users.Keys == t.users.Keys
    && s.orders.Keys == t.orders.Keys
    && forall k, p :: LineDocs(s, k, p) == LineDocs(t, k, p)
  }

  // ---- the atomic single-document upserts ----

  function UpsertUser(s: Store, e: Email): Store {
    if e in s.users then s
    else s.(users := s.users[e := s.nextId], nextId := s.nextId + 1)
  }

  function UpsertOrder(s: Store, k: OrderKey, userId: nat): Store {
    if k in s.orders then s
    else s.(orders := s.orders[k := Order(s.nextId, userId)], nextId := s.nextId + 1)
  }

  function UpsertLine(s: Store, r: LineRef, price: int): Store {
    if r in s.lines then s
    else s.(lines := s.lines[r := [LineDoc(1, price)]])
  }

  // ---- growth towards a set of payloads ----

  /** `t` keeps every document of `s` with its id and adds nothing but what some
      payload of `ps` asks for. Holds at every moment of a bulk write. */
  ghost predicate Grows(s: Store, ps: set<Payload>, t: Store) {
    && Keeps(s, t)
    && (forall e | e in t.users && e !in s.users :: AsksUser(ps, e))
    && (forall k | k in t.orders && k !in s.orders :: AsksOrder(ps, k))
    && (forall k, p :: LinesGrow(s, ps, t, k, p))
  }

  ghost predicate Keeps(s: Store, t: Store) {
    && (forall e | e in s.users :: e in t.users && t.users[e] == s.users[e])
    && (forall k | k in s.orders :: k in t.orders && t.orders[k] == s.orders[k])
  }

  ghost predicate AsksUser(ps: set<Payload>, e: Email) {
    exists q :: q in ps && q.email == e
  }

  ghost predicate AsksOrder(ps: set<Payload>, k: OrderKey) {
    exists q :: q in ps && q.Key() == k
  }

  ghost predicate LinesGrow(s: Store, ps: set<Payload>, t: Store, k: OrderKey, p: ProductId) {
    LineDocs(t, k, p) == LineDocs(s, k, p)
    || (LineDocs(s, k, p) == [] && exists q :: q in ps && Asks(q, k, p) && LineDocs(t, k, p) == [LineDoc(1, q.price)])
  }

  predicate Asks(q: Payload, k: OrderKey, p: ProductId) {
    q.Key() == k && q.productId == p
  }

  predicate Recorded(t: Store, q: Payload) {
    q.email in t.users && q.Key() in t.orders && LineDocs(t, q.Key(), q.productId) != []
  }

  ghost predicate Complete(t: Store, ps: set<Payload>) {
    forall q | q in ps :: Recorded(t, q)
  }

  /** What the audit promises for a set of accepted orders. */
  ghost predicate Records(s: Store, ps: set<Payload>, t: Store) {
    Grows(s, ps, t) && Complete(t, ps)
  }

  /** Payloads for the same order line carry the same price. */
  ghost predicate PricesAgree(ps: set<Payload>) {
    forall q, r | q in ps && r in ps && q.Key() == r.Key() && q.productId == r.productId :: q.price == r.price
  }

  // ---- one upsert keeps soundness and grows the store ----

  lemma {:induction false} UpsertUserStep(s: Store, q: Payload)
    requires Sound(s)
    ensures var t := UpsertUser(s, q.email); Sound(t) && Grows(s, {q}, t) && q.email in t.users
  {
    var t := UpsertUser(s, q.email);
    LinesHaveOrders(s, t);
    UserGrows(s, q);
  }

  lemma {:induction false} UserGrows(s: Store, q: Payload)
    ensures Grows(s, {q}, UpsertUser(s, q.email))
  {
    SameLinesGrow(s, {q}, UpsertUser(s, q.email));
    assert AsksUser({q}, q.email);
  }

  lemma {:induction false} UpsertOrderStep(s: Store, q: Payload, userId: nat)
    requires Sound(s) && q.email in s.users && userId == s.users[q.email]
    ensures var t := UpsertOrder(s, q.Key(), userId); Sound(t) && Grows(s, {q}, t) && q.Key() in t.orders
  {
    var t := UpsertOrder(s, q.Key(), userId);
    LinesHaveOrders(s, t);
    OrderGrows(s, q, userId);
  }

  lemma {:induction false} OrderGrows(s: Store, q: Payload, userId: nat)
    requires forall r | r in s.lines :: r.orderId < s.nextId
    ensures Grows(s, {q}, UpsertOrder(s, q.Key(), userId))
  {
    SameLinesGrow(s, {q}, UpsertOrder(s, q.Key(), userId));
    assert AsksOrder({q}, q.Key());
  }

  lemma {:induction false} LinesHaveOrders(s: Store, t: Store)
    requires SoundOrders(s) && SoundLines(s) && t.lines == s.lines && Keeps(s, t)
    ensures SoundLines(t) && forall r | r in s.lines :: r.orderId < s.nextId
  {
    forall r | r in s.lines ensures HasOrder(t, r.orderId) && r.orderId < s.nextId {
      assert HasOrder(s, r.orderId);
      var k :| k in s.orders && s.orders[k].id == r.orderId;
      assert k in t.orders && t.orders[k].id == r.orderId;
    }
  }

  lemma {:induction false} UpsertLineStep(s: Store, q: Payload)
    requires Sound(s) && q.Key() in s.orders
    ensures var t := UpsertLine(s, LineRef(s.orders[q.Key()].id, q.productId), q.price);
            Sound(t) && Grows(s, {q}, t) && LineDocs(t, q.Key(), q.productId) != []
  {
    var r := LineRef(s.orders[q.Key()].id, q.productId);
    var t := UpsertLine(s, r, q.price);
    assert SoundLines(t) by {
      assert HasOrder(t, r.orderId);
      forall x | x in s.lines ensures HasOrder(t, x.orderId) {
        assert HasOrder(s, x.orderId);
      }
    }
    OneLineGrows(s, q);
  }

  lemma {:induction false} OneLineGrows(s: Store, q: Payload)
    requires SoundOrders(s) && q.Key() in s.orders
    requires forall r | r in s.lines :: |s.lines[r]| == 1
    ensures var t := UpsertLine(s, LineRef(s.orders[q.Key()].id, q.productId), q.price);
            Grows(s, {q}, t) && LineDocs(t, q.Key(), q.productId) != []
  {
    var r := LineRef(s.orders[q.Key()].id, q.productId);
    var t := UpsertLine(s, r, q.price);
    forall k, p ensures LinesGrow(s, {q}, t, k, p) {
      if k in s.orders && LineRef(s.orders[k].id, p) == r {
        assert q in {q} && Asks(q, k, p);
      }
    }
  }

  /** Adding users or orders never moves a line. */
  lemma {:induction false} SameLinesGrow(s: Store, ps: set<Payload>, t: Store)
    requires t.lines == s.lines && Keeps(s, t)
    requires forall k, r | k in t.orders && k !in s.orders && r in s.lines :: r.orderId != t.orders[k].id
    ensures forall k, p :: LinesGrow(s, ps, t, k, p)
  {
    forall k, p ensures LinesGrow(s, ps, t, k, p) {
      if k in t.orders && k !in s.orders {
        assert LineRef(t.orders[k].id, p) !in s.lines;
      }
    }
  }

  // ---- growth composes ----

  lemma {:induction false} GrowsRefl(s: Store, ps: set<Payload>)
    ensures Grows(s, ps, s)
  {
  }

  lemma {:induction false} GrowsTrans(s: Store, ps: set<Payload>, t: Store, u: Store)
    requires Grows(s, ps, t) && Grows(t, ps, u)
    ensures Grows(s, ps, u)
  {
    forall k, p ensures LinesGrow(s, ps, u, k, p) {
      assert LinesGrow(s, ps, t, k, p) && LinesGrow(t, ps, u, k, p);
    }
  }

  lemma {:induction false} GrowsMono(s: Store, ps: set<Payload>, qs: set<Payload>, t: Store)
    requires Grows(s, ps, t) && ps <= qs
    ensures Grows(s, qs, t)
  {
    forall e | e in t.users && e !in s.users ensures AsksUser(qs, e) {
      assert AsksUser(ps, e);
    }
    forall k | k in t.orders && k !in s.orders ensures AsksOrder(qs, k) {
      assert AsksOrder(ps, k);
    }
    forall k, p ensures LinesGrow(s, qs, t, k, p) {
      assert LinesGrow(s, ps, t, k, p);
    }
  }

  /** What is recorded stays recorded. */
  lemma {:induction false} RecordedStays(s: Store, ps: set<Payload>, t: Store, q: Payload)
    requires Grows(s, ps, t) && Recorded(s, q)
    ensures Recorded(t, q) && LineDocs(t, q.Key(), q.productId) == LineDocs(s, q.Key(), q.productId)
  {
    assert LinesGrow(s, ps, t, q.Key(), q.productId);
  }

  /** The contents after a complete audit depend on the payload set alone: this
      is what makes retries, splits, reorderings and duplicates invisible. */
  lemma {:induction false} RecordsDeterminesContents(s: Store, ps: set<Payload>, t: Store, u: Store)
    requires Records(s, ps, t) && Records(s, ps, u) && PricesAgree(ps)
    ensures SameRecords(t, u)
  {
    RecordsWithin(s, ps, t, u);
    RecordsWithin(s, ps, u, t);
    RecordsSameLines(s, ps, t, u);
  }

  lemma {:induction false} RecordsWithin(s: Store, ps: set<Payload>, t: Store, u: Store)
    requires Grows(s, ps, t) && Records(s, ps, u)
    ensures t.users.Keys <= u.users.Keys && t.orders.Keys <= u.orders.Keys
  {
    forall e | e in t.users ensures e in u.users {
      if e !in s.users {
        assert AsksUser(ps, e);
        var q :| q in ps && q.email == e;
        assert Recorded(u, q);
      }
    }
    forall k | k in t.orders ensures k in u.orders {
      if k !in s.orders {
        assert AsksOrder(ps, k);
        var q :| q in ps && q.Key() == k;
        assert Recorded(u, q);
      }
    }
  }

  lemma {:induction false} RecordsSameLines(s: Store, ps: set<Payload>, t: Store, u: Store)
    requires Records(s, ps, t) && Records(s, ps, u) && PricesAgree(ps)
    ensures forall k, p :: LineDocs(t, k, p) == LineDocs(u, k, p)
  {
    forall k, p ensures LineDocs(t, k, p) == LineDocs(u, k, p) {
      assert LinesGrow(s, ps, t, k, p) && LinesGrow(s, ps, u, k, p);
      if q :| q in ps && Asks(q, k, p) {
        assert Recorded(t, q) && Recorded(u, q);
      }
    }
  }
}

/**
 The one-order recorder (server/src/adapters/mongo/audit.ts): insert the user,
 the order and its line one after another, and stop at a duplicate order. The
 batched write is proved to refine a fold of it.
 */
module Recorder {
  import opened Ids
  import opened AuditStore
  import opened BulkAudit

  /** Plain insert: the collection has no unique index to refuse a second line. */
  function InsertLine(s: Store, r: LineRef, doc: LineDoc): Store {
    s.(lines := s.lines[r := (if r in s.lines then s.lines[r] else []) + [doc]])
  }

  /** The unique (saleId, email) index refuses a second order: the early return. */
  function RecordOrder(s: Store, k: OrderKey, productId: ProductId, price: int): Store {
    var t := UpsertUser(s, k.email);
    if k in t.orders then t
    else
      var u := UpsertOrder(t, k, t.users[k.email]);
      InsertLine(u, LineRef(u.orders[k].id, productId), LineDoc(1, price))
  }

  /** A fold of the recorder over a batch, product and price fixed at boot. */
  function RecordAll(s: Store, b: seq<Payload>, productId: ProductId, price: int): Store {
    if b == [] then s
    else RecordOrder(RecordAll(s, b[..|b| - 1], productId, price), b[|b| - 1].Key(), productId, price)
  }

  ghost predicate SameItem(b: seq<Payload>, productId: ProductId, price: int) {
    forall q | q in b :: q.productId == productId && q.price == price
  }

  /** The order is absent, or already has its line. */
  predicate NoOrphan(s: Store, k: OrderKey, p: ProductId) {
    k in s.orders ==> LineDocs(s, k, p) != []
  }

  /** On a new order the recorder does what the three upserts do. */
  lemma {:induction false} RecordOrderStep(s: Store, q: Payload)
    requires Sound(s)
    ensures var t := RecordOrder(s, q.Key(), q.productId, q.price);
            && Sound(t) && Grows(s, {q}, t) && q.email in t.users && q.Key() in t.orders
            && (q.Key() !in s.orders ==> LineDocs(t, q.Key(), q.productId) != [])
            && (q.Key() in s.orders ==> t.orders == s.orders && t.lines == s.lines)
  {
    var t := UpsertUser(s, q.email);
    UpsertUserStep(s, q);
    if q.Key() !in s.orders {
      RecordNewOrder(t, q);
      GrowsTrans(s, {q}, t, RecordOrder(s, q.Key(), q.productId, q.price));
    }
  }

  lemma {:induction false} RecordNewOrder(t: Store, q: Payload)
    requires Sound(t) && q.email in t.users && q.Key() !in t.orders
    ensures var v := RecordOrder(t, q.Key(), q.productId, q.price);
            && Sound(v) && Grows(t, {q}, v) && q.email in v.users && q.Key() in v.orders
            && LineDocs(v, q.Key(), q.productId) != []
  {
    var u := UpsertOrder(t, q.Key(), t.users[q.email]);
    UpsertOrderStep(t, q, t.users[q.email]);
    NewOrderHasNoLine(t, u, q);
    UpsertLineStep(u, q);
    var v := UpsertLine(u, LineRef(u.orders[q.Key()].id, q.productId), q.price);
    assert [] + [LineDoc(1, q.price)] == [LineDoc(1, q.price)];
    assert v == RecordOrder(t, q.Key(), q.productId, q.price);
    GrowsTrans(t, {q}, u, v);
  }

  lemma {:induction false} NewOrderHasNoLine(t: Store, u: Store, q: Payload)
    requires SoundOrders(t) && SoundLines(t) && q.Key() !in t.orders && q.email in t.users
    requires u == UpsertOrder(t, q.Key(), t.users[q.email])
    ensures LineRef(u.orders[q.Key()].id, q.productId) !in u.lines
  {
    LinesHaveOrders(t, u);
  }

  lemma {:induction false} OneMoreGrows(s: Store, t: Store, u: Store, b: seq<Payload>)
    requires b != [] && Grows(s, PayloadSet(b[..|b| - 1]), t) && Grows(t, {b[|b| - 1]}, u)
    ensures Grows(s, PayloadSet(b), u)
  {
    var front, last := b[..|b| - 1], b[|b| - 1];
    assert last in b && b == front + [last];
    GrowsMono(s, PayloadSet(front), PayloadSet(b), t);
    GrowsMono(t, {last}, PayloadSet(b), u);
    GrowsTrans(s, PayloadSet(b), t, u);
  }

  lemma {:induction false} OneMoreIsKnown(t: Store, u: Store, b: seq<Payload>)
    requires b != [] && Keeps(t, u) && b[|b| - 1].email in u.users && b[|b| - 1].Key() in u.orders
    requires forall q | q in b[..|b| - 1] :: q.email in t.users && q.Key() in t.orders
    ensures forall q | q in b :: q.email in u.users && q.Key() in u.orders
  {
    assert b == b[..|b| - 1] + [b[|b| - 1]];
  }

  lemma {:induction false} RecordAllSound(s: Store, b: seq<Payload>, p: ProductId, price: int)
    requires Sound(s) && SameItem(b, p, price)
    ensures var t := RecordAll(s, b, p, price);
            Sound(t) && Grows(s, PayloadSet(b), t) && forall q | q in b :: q.email in t.users && q.Key() in t.orders
  {
    if b == [] {
      GrowsRefl(s, {});
    } else {
      var front, last := b[..|b| - 1], b[|b| - 1];
      var t := RecordAll(s, front, p, price);
      RecordAllSound(s, front, p, price);
      RecordOrderStep(t, last);
      OneMoreGrows(s, t, RecordAll(s, b, p, price), b);
      OneMoreIsKnown(t, RecordAll(s, b, p, price), b);
    }
  }

  lemma {:induction false} OneMoreKeepsLines(t: Store, u: Store, q: Payload, k: OrderKey, p: ProductId)
    requires k in t.orders && Grows(t, {q}, u)
    requires q.Key() in t.orders ==> u.orders == t.orders && u.lines == t.lines
    ensures k in u.orders && LineDocs(u, k, p) == LineDocs(t, k, p)
  {
    if q.Key() !in t.orders {
      assert LinesGrow(t, {q}, u, k, p);
    }
  }

  /** An order that was there keeps exactly the lines it had. */
  lemma {:induction false} RecordAllKeepsLines(s: Store, b: seq<Payload>, p: ProductId, price: int, k: OrderKey)
    requires Sound(s) && SameItem(b, p, price) && k in s.orders
    ensures k in RecordAll(s, b, p, price).orders && LineDocs(RecordAll(s, b, p, price), k, p) == LineDocs(s, k, p)
  {
    if b != [] {
      var front, last := b[..|b| - 1], b[|b| - 1];
      var t := RecordAll(s, front, p, price);
      RecordAllKeepsLines(s, front, p, price, k);
      RecordAllSound(s, front, p, price);
      RecordOrderStep(t, last);
      OneMoreKeepsLines(t, RecordAll(s, b, p, price), last, k, p);
    }
  }

  /** A payload is recorded unless its order was there before without its line. */
  lemma {:induction false} RecordAllRecords(s: Store, b: seq<Payload>, p: ProductId, price: int, q: Payload)
    requires Sound(s) && SameItem(b, p, price) && q in b && NoOrphan(s, q.Key(), p)
    ensures Recorded(RecordAll(s, b, p, price), q)
  {
    var front, last := b[..|b| - 1], b[|b| - 1];
    var t := RecordAll(s, front, p, price);
    RecordAllSound(s, front, p, price);
    RecordOrderStep(t, last);
    if q in front {
      RecordAllRecords(s, front, p, price, q);
      RecordedStays(t, {last}, RecordAll(s, b, p, price), q);
    } else if q.Key() in s.orders {
      RecordAllKeepsLines(s, front, p, price, q.Key());
    } else {
      assert q.Key() in t.orders ==> AsksOrder(PayloadSet(front), q.Key());
    }
  }

  /** Re-recording changes neither orders nor lines: an order whose line was lost
      between the two inserts never gets it back from the recorder. */
  lemma {:induction false} RecordAllGrows(s: Store, b: seq<Payload>, p: ProductId, price: int)
    requires Sound(s) && SameItem(b, p, price)
    ensures var t := RecordAll(s, b, p, price);
            Sound(t) && Grows(s, PayloadSet(b), t) && forall q | q in b :: q.email in t.users && q.Key() in t.orders
    ensures forall q | q in b && NoOrphan(s, q.Key(), p) :: Recorded(RecordAll(s, b, p, price), q)
    ensures forall k | k in s.orders :: LineDocs(RecordAll(s, b, p, price), k, p) == LineDocs(s, k, p)
  {
    RecordAllSound(s, b, p, price);
    forall q | q in b && NoOrphan(s, q.Key(), p) ensures Recorded(RecordAll(s, b, p, price), q) {
      RecordAllRecords(s, b, p, price, q);
    }
    forall k | k in s.orders ensures LineDocs(RecordAll(s, b, p, price), k, p) == LineDocs(s, k, p) {
      RecordAllKeepsLines(s, b, p, price, k);
    }
  }

  /** The batched write and the fold of single records leave the same contents
      exactly when no order of the batch was left without its line before. */
  lemma {:induction false} BulkRefinesRecorder(s: Store, b: seq<Payload>, p: ProductId, price: int)
    requires Sound(s) && OneSalePerEmail(b) && SameItem(b, p, price)
    ensures Sound(Bulk(s, b)) && Sound(RecordAll(s, b, p, price))
    ensures SameRecords(Bulk(s, b), RecordAll(s, b, p, price)) <==> forall q | q in b :: NoOrphan(s, q.Key(), p)
  {
    var t, u := Bulk(s, b), RecordAll(s, b, p, price);
    BulkRecords(s, b);
    RecordAllGrows(s, b, p, price);
    if forall q | q in b :: NoOrphan(s, q.Key(), p) {
      RecordsDeterminesContents(s, PayloadSet(b), t, u);
    } else {
      var q :| q in b && !NoOrphan(s, q.Key(), p);
      assert q in PayloadSet(b) && Recorded(t, q);
      assert LineDocs(u, q.Key(), p) == [];
    }
  }

  /** A crash between the recorder's last two inserts: the retry returns early at
      the duplicate order and never adds the line, while one bulk write does. */
  lemma {:induction false} OnlyBulkHealsAnOrphan(s: Store, q: Payload)
    requires Sound(s) && q.Key() !in s.orders
    ensures var t := UpsertUser(s, q.email);
            var crashed := UpsertOrder(t, q.Key(), t.users[q.email]);
            && LineDocs(RecordOrder(crashed, q.Key(), q.productId, q.price), q.Key(), q.productId) == []
            && LineDocs(Bulk(crashed, [q]), q.Key(), q.productId) == [LineDoc(1, q.price)]
  {
    var t := UpsertUser(s, q.email);
    var crashed := UpsertOrder(t, q.Key(), t.users[q.email]);
    UpsertUserStep(s, q);
    UpsertOrderStep(t, q, t.users[q.email]);
    NewOrderHasNoLine(t, crashed, q);
    BulkAddsTheLine(crashed, q);
  }

  lemma {:induction false} BulkAddsTheLine(s: Store, q: Payload)
    requires Sound(s) && LineDocs(s, q.Key(), q.productId) == []
    ensures LineDocs(Bulk(s, [q]), q.Key(), q.productId) == [LineDoc(1, q.price)]
  {
    BulkRecords(s, [q]);
    assert PayloadSet([q]) == {q};
    assert Recorded(Bulk(s, [q]), q) && LinesGrow(s, {q}, Bulk(s, [q]), q.Key(), q.productId);
  }
}

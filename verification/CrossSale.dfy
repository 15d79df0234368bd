/**
 What the bulk write does to a batch in which an email is under two sales:
 `orderIdByEmail` (server/src/adapters/mongo/bulk-audit.ts) is keyed by email
 only, so all lines of the email go to the order of one of them.
 */
module CrossSale {
  import opened Ids
  import opened AuditStore
  import opened BulkAudit

  /** The last of `sales` under which the batch has the email. */
  function LastWith(b: seq<Payload>, sales: seq<SaleId>, e: Email): Option<SaleId> {
    if sales == [] then None
    else if e in EmailsUnder(b, sales[|sales| - 1]) then Some(sales[|sales| - 1])
    else LastWith(b, sales[..|sales| - 1], e)
  }

  /** The sale whose order gets all lines of the email. */
  function WinningSale(b: seq<Payload>, e: Email): Option<SaleId> {
    LastWith(b, SaleOrder(b), e)
  }

  /** The price of the first payload for the email and product. */
  function FirstPrice(c: seq<Payload>, e: Email, p: ProductId): Option<int> {
    if c == [] then None
    else
      var q, rest := c[|c| - 1], FirstPrice(c[..|c| - 1], e, p);
      if rest.None? && q.email == e && q.productId == p then Some(q.price) else rest
  }

  lemma {:induction false} WinnerIsInTheBatch(b: seq<Payload>, sales: seq<SaleId>, e: Email)
    requires LastWith(b, sales, e).Some?
    ensures exists q :: q in b && q.email == e && q.saleId == LastWith(b, sales, e).value
  {
    if e !in EmailsUnder(b, sales[|sales| - 1]) {
      WinnerIsInTheBatch(b, sales[..|sales| - 1], e);
    }
  }

  lemma {:induction false} EachEmailHasAWinner(b: seq<Payload>, sales: seq<SaleId>, q: Payload)
    requires q in b && q.saleId in sales
    ensures LastWith(b, sales, q.email).Some?
  {
    var last := sales[|sales| - 1];
    if q.email !in EmailsUnder(b, last) {
      assert q.saleId != last;
      EachEmailHasAWinner(b, sales[..|sales| - 1], q);
    }
  }

  lemma {:induction false} FirstPriceIsSome(c: seq<Payload>, q: Payload)
    requires q in c
    ensures FirstPrice(c, q.email, q.productId).Some?
  {
    if q in c[..|c| - 1] {
      FirstPriceIsSome(c[..|c| - 1], q);
    }
  }

  lemma {:induction false} FirstPriceHasAPayload(c: seq<Payload>, e: Email, p: ProductId)
    requires FirstPrice(c, e, p).Some?
    ensures exists q :: q in c && q.email == e && q.productId == p
  {
    if FirstPrice(c[..|c| - 1], e, p).Some? {
      FirstPriceHasAPayload(c[..|c| - 1], e, p);
      var q :| q in c[..|c| - 1] && q.email == e && q.productId == p;
      assert q in c;
    }
  }

  /** Where the batch has its first payload of the sale; its length if nowhere. */
  function FirstOf(b: seq<Payload>, sale: SaleId): (r: nat)
    ensures r <= |b| && (r < |b| ==> b[r].saleId == sale)
    ensures forall j | 0 <= j < r :: b[j].saleId != sale
  {
    if b == [] then 0
    else
      var last := |b| - 1;
      var r := FirstOf(b[..last], sale);
      if r < last || b[last].saleId == sale then r else |b|
  }

  lemma {:induction false} SaleOrderIsByFirst(b: seq<Payload>)
    ensures forall i {:trigger SaleOrder(b)[i]} | 0 <= i < |SaleOrder(b)| :: FirstOf(b, SaleOrder(b)[i]) < |b|
    ensures forall i, j {:trigger SaleOrder(b)[i], SaleOrder(b)[j]} | 0 <= i < j < |SaleOrder(b)| ::
              FirstOf(b, SaleOrder(b)[i]) < FirstOf(b, SaleOrder(b)[j])
  {
    if b != [] {
      var most, r := b[..|b| - 1], SaleOrder(b[..|b| - 1]);
      SaleOrderIsByFirst(most);
      forall i | 0 <= i < |r| ensures FirstOf(b, r[i]) == FirstOf(most, r[i]) < |most| {
      }
      assert forall i | 0 <= i < |r| :: SaleOrder(b)[i] == r[i];
    }
  }

  lemma {:induction false} LastWithIsLast(b: seq<Payload>, sales: seq<SaleId>, e: Email) returns (k: nat)
    requires LastWith(b, sales, e).Some?
    ensures k < |sales| && LastWith(b, sales, e) == Some(sales[k]) && e in EmailsUnder(b, sales[k])
    ensures forall j | k < j < |sales| :: e !in EmailsUnder(b, sales[j])
  {
    k := |sales| - 1;
    if e !in EmailsUnder(b, sales[k]) {
      k := LastWithIsLast(b, sales[..k], e);
      assert sales[..|sales| - 1][k] == sales[k];
    }
  }

  /** Of the sales a batch has the email under, the one wins whose first payload, for
      whatever email, comes last. */
  lemma {:induction false} WinnerCameLast(b: seq<Payload>, e: Email, q: Payload)
    requires q in b && q.email == e
    ensures WinningSale(b, e).Some?
    ensures FirstOf(b, q.saleId) <= FirstOf(b, WinningSale(b, e).value) < |b|
    ensures exists p :: p in b && p.email == e && p.saleId == WinningSale(b, e).value
  {
    SaleOrderIsByFirst(b);
    EachEmailHasAWinner(b, SaleOrder(b), q);
    WinnerIsInTheBatch(b, SaleOrder(b), e);
    var k := LastWithIsLast(b, SaleOrder(b), e);
    var i :| 0 <= i < |SaleOrder(b)| && SaleOrder(b)[i] == q.saleId;
    assert e in EmailsUnder(b, SaleOrder(b)[i]);
    assert i <= k;
  }

  /** The email map after the orders phase names the winner's order. */
  lemma {:induction false} ResolvesTheWinner(t: Store, b: seq<Payload>, sales: seq<SaleId>, e: Email)
    requires forall q | q in b :: q.Key() in t.orders
    ensures var ids, sale := ResolveOrders(t, b, sales), LastWith(b, sales, e);
            && (e in ids <==> sale.Some?)
            && (e in ids ==> OrderKey(sale.value, e) in t.orders && ids[e] == t.orders[OrderKey(sale.value, e)].id)
  {
    if sales != [] {
      var last := sales[|sales| - 1];
      ResolvesTheWinner(t, b, sales[..|sales| - 1], e);
      if e in EmailsUnder(b, last) {
        var q :| q in b && q.saleId == last && q.email == e;
        assert q.Key() == OrderKey(last, e);
      }
    }
  }

  /** The lines phase adds exactly the first payload of each email and product. */
  lemma {:induction false} LinesAdded(t: Store, c: seq<Payload>, ids: map<Email, nat>, e: Email, p: ProductId)
    requires e in ids && forall f | f in ids && ids[f] == ids[e] :: f == e
    ensures var r, u := LineRef(ids[e], p), UpsertLines(t, c, ids);
            && (r in t.lines ==> r in u.lines && u.lines[r] == t.lines[r])
            && (r !in t.lines ==>
                 match FirstPrice(c, e, p)
                 case None => r !in u.lines
                 case Some(price) => r in u.lines && u.lines[r] == [LineDoc(1, price)])
  {
    if c != [] {
      LinesAdded(t, c[..|c| - 1], ids, e, p);
    }
  }

  lemma {:induction false} OtherLinesStay(t: Store, c: seq<Payload>, ids: map<Email, nat>, r: LineRef)
    requires forall f | f in ids :: ids[f] != r.orderId
    ensures var u := UpsertLines(t, c, ids);
            (r in u.lines <==> r in t.lines) && (r in t.lines ==> u.lines[r] == t.lines[r])
  {
    if c != [] {
      OtherLinesStay(t, c[..|c| - 1], ids, r);
    }
  }

  lemma {:induction false} LinesPhaseKeepsTheRest(t: Store, c: seq<Payload>, ids: map<Email, nat>)
    ensures UpsertLines(t, c, ids).orders == t.orders && UpsertLines(t, c, ids).users == t.users
  {
    if c != [] {
      LinesPhaseKeepsTheRest(t, c[..|c| - 1], ids);
    }
  }

  lemma {:induction false} UsersAddNoLines(s: Store, c: seq<Payload>)
    ensures UpsertUsers(s, c).lines == s.lines
  {
    if c != [] {
      UsersAddNoLines(s, c[..|c| - 1]);
    }
  }

  lemma {:induction false} OrdersAddNoLines(s: Store, c: seq<Payload>, userIds: map<Email, nat>)
    requires forall q | q in c :: q.email in userIds
    ensures UpsertOrders(s, c, userIds).lines == s.lines
  {
    if c != [] {
      OrdersAddNoLines(s, c[..|c| - 1], userIds);
    }
  }

  lemma {:induction false} OrdersPhaseAddsNoLines(s: Store, b: seq<Payload>, users: seq<Payload>, orders: seq<Payload>)
    requires PayloadSet(users) == PayloadSet(b) && PayloadSet(orders) == PayloadSet(b)
    ensures AfterOrders(s, b, users, orders).lines == s.lines
  {
    var t := UpsertUsers(s, users);
    UsersAddNoLines(s, users);
    assert forall q | q in orders :: q in PayloadSet(orders) && q in PayloadSet(users);
    OrdersAddNoLines(t, orders, ResolveUsers(t, b));
  }

  lemma {:induction false} LinesBefore(s: Store, b: seq<Payload>, users: seq<Payload>, orders: seq<Payload>)
    requires Sound(s) && PayloadSet(users) == PayloadSet(b) && PayloadSet(orders) == PayloadSet(b)
    ensures var t := AfterOrders(s, b, users, orders);
            && Sound(t) && Grows(s, PayloadSet(b), t)
            && t.lines == s.lines
            && (forall q | q in b :: q.email in t.users && q.Key() in t.orders)
  {
    AfterOrdersGrows(s, b, users, orders);
    OrdersPhaseAddsNoLines(s, b, users, orders);
    assert forall q | q in b :: q in PayloadSet(b) && q in PayloadSet(orders);
  }

  /** Before the lines phase every order has the lines it had. */
  lemma {:induction false} OldLines(s: Store, t: Store, k: OrderKey, p: ProductId)
    requires SoundLines(s) && SoundOrders(t) && Keeps(s, t) && t.lines == s.lines
    ensures LineDocs(t, k, p) == LineDocs(s, k, p)
  {
    if k in t.orders && LineRef(t.orders[k].id, p) in s.lines {
      LinesBelongToOldOrders(s, t, k, p);
    }
  }

  lemma {:induction false} LinesBelongToOldOrders(s: Store, t: Store, k: OrderKey, p: ProductId)
    requires SoundLines(s) && SoundOrders(t) && Keeps(s, t)
    requires k in t.orders && LineRef(t.orders[k].id, p) in s.lines
    ensures k in s.orders
  {
    assert HasOrder(s, t.orders[k].id);
    var l :| l in s.orders && s.orders[l].id == t.orders[k].id;
    assert t.orders[l].id == t.orders[k].id;
  }

  /** The order of `k` gets the lines of its email. */
  predicate Wins(b: seq<Payload>, k: OrderKey) {
    WinningSale(b, k.email) == Some(k.saleId)
  }

  /** Every line after a write that was carried through: a winning order has one
      line for each product any payload of its email names, every other order the
      lines it had. */
  lemma {:induction false} LinesAfterwards(s: Store, d: Delivery, k: OrderKey, p: ProductId)
    requires Sound(s) && CarriedThrough(d)
    ensures var price := FirstPrice(d.cut.done, k.email, p);
            LineDocs(Deliver(s, d), k, p) ==
              if LineDocs(s, k, p) == [] && Wins(d.batch, k) && price.Some? then [LineDoc(1, price.value)]
              else LineDocs(s, k, p)
  {
    var t := AfterOrders(s, d.batch, d.cut.users, d.cut.orders);
    LinesBefore(s, d.batch, d.cut.users, d.cut.orders);
    OldLines(s, t, k, p);
    LinesOf(t, d.batch, d.cut.done, k, p);
  }

  lemma {:induction false} WinnerHasAnOrder(t: Store, b: seq<Payload>, k: OrderKey)
    requires Wins(b, k) && forall q | q in b :: q.Key() in t.orders
    ensures k in t.orders
  {
    WinnerIsInTheBatch(b, SaleOrder(b), k.email);
    var q :| q in b && q.email == k.email && q.saleId == k.saleId;
    assert q.Key() == k;
  }

  lemma {:induction false} LinesOf(t: Store, b: seq<Payload>, done: seq<Payload>, k: OrderKey, p: ProductId)
    requires SoundOrders(t) && SoundLines(t) && (forall q | q in b :: q.Key() in t.orders)
    ensures var u, price := UpsertLines(t, done, ResolveOrders(t, b, SaleOrder(b))), FirstPrice(done, k.email, p);
            LineDocs(u, k, p) ==
              if LineDocs(t, k, p) == [] && Wins(b, k) && price.Some? then [LineDoc(1, price.value)]
              else LineDocs(t, k, p)
  {
    var ids := ResolveOrders(t, b, SaleOrder(b));
    LinesPhaseKeepsTheRest(t, done, ids);
    if Wins(b, k) {
      WinnerHasAnOrder(t, b, k);
    }
    if k in t.orders {
      var r := LineRef(t.orders[k].id, p);
      assert r in t.lines ==> |t.lines[r]| == 1;
      ResolvesTheWinner(t, b, SaleOrder(b), k.email);
      forall f | f in ids && ids[f] == t.orders[k].id ensures f == k.email && Wins(b, k) {
        ResolvesTheWinner(t, b, SaleOrder(b), f);
      }
      if Wins(b, k) {
        LinesAdded(t, done, ids, k.email, p);
      } else {
        OtherLinesStay(t, done, ids, r);
      }
    }
  }

  // ---- what that means for the payloads ----

  /** Two orders of one email that had no such line cannot both get one. */
  lemma {:induction false} SecondSaleGetsNoLine(s: Store, d: Delivery, q: Payload, r: Payload)
    requires Sound(s) && CarriedThrough(d)
    requires q in d.batch && r in d.batch && q.email == r.email && q.saleId != r.saleId
    requires LineDocs(s, q.Key(), q.productId) == [] && LineDocs(s, r.Key(), r.productId) == []
    ensures !Recorded(Deliver(s, d), q) || !Recorded(Deliver(s, d), r)
  {
    LinesAfterwards(s, d, q.Key(), q.productId);
    LinesAfterwards(s, d, r.Key(), r.productId);
  }

  /** The losing payload adds nothing to its own order, and its product is on the
      bill of the other sale's order. */
  lemma {:induction false} LoserIsBilledToTheWinner(s: Store, d: Delivery, q: Payload)
    requires Sound(s) && CarriedThrough(d) && q in d.batch && !Wins(d.batch, q.Key())
    ensures LineDocs(Deliver(s, d), q.Key(), q.productId) == LineDocs(s, q.Key(), q.productId)
    ensures var sale := WinningSale(d.batch, q.email);
            && sale.Some? && sale.value != q.saleId
            && LineDocs(Deliver(s, d), OrderKey(sale.value, q.email), q.productId) != []
  {
    EachEmailHasAWinner(d.batch, SaleOrder(d.batch), q);
    var sale := WinningSale(d.batch, q.email).value;
    assert q in PayloadSet(d.batch) && q in PayloadSet(d.cut.done);
    FirstPriceIsSome(d.cut.done, q);
    LinesAfterwards(s, d, q.Key(), q.productId);
    LinesAfterwards(s, d, OrderKey(sale, q.email), q.productId);
  }

  /** The payload is safe: it wins, or its line was there before; and the line the
      winner gets for its product, unless there before, is one the winner asked for
      at the price that is written. */
  ghost predicate Safe(s: Store, d: Delivery, q: Payload)
    requires CarriedThrough(d)
  {
    && (Wins(d.batch, q.Key()) || LineDocs(s, q.Key(), q.productId) != [])
    && forall k | Wins(d.batch, k) && k.email == q.email && LineDocs(s, k, q.productId) == [] ::
         AskedFor(d, k, q.productId)
  }

  ghost predicate AskedFor(d: Delivery, k: OrderKey, p: ProductId)
    requires CarriedThrough(d)
  {
    exists r :: r in d.batch && Asks(r, k, p) && FirstPrice(d.cut.done, k.email, p) == Some(r.price)
  }

  /** Store by store: a write that was carried through records its batch, no more
      and no less, exactly if all its payloads are safe on that store. */
  lemma {:induction false} RecordsThisStoreIff(s: Store, d: Delivery)
    requires Sound(s) && CarriedThrough(d)
    ensures Records(s, PayloadSet(d.batch), Deliver(s, d)) <==> forall q | q in d.batch :: Safe(s, d, q)
  {
    if forall q | q in d.batch :: Safe(s, d, q) {
      AllSafeRecords(s, d);
    }
    if Records(s, PayloadSet(d.batch), Deliver(s, d)) {
      forall q | q in d.batch ensures Safe(s, d, q) {
        RecordedIsSafe(s, d, q);
      }
    }
  }

  lemma {:induction false} AllSafeRecords(s: Store, d: Delivery)
    requires Sound(s) && CarriedThrough(d) && forall q | q in d.batch :: Safe(s, d, q)
    ensures Records(s, PayloadSet(d.batch), Deliver(s, d))
  {
    var u := Deliver(s, d);
    OrdersAndUsersGrow(s, d);
    forall k, p ensures LinesGrow(s, PayloadSet(d.batch), u, k, p) {
      SafeLinesGrow(s, d, k, p);
    }
    forall q | q in PayloadSet(d.batch) ensures Recorded(u, q) {
      SafeIsRecorded(s, d, q);
    }
  }

  lemma {:induction false} OrdersAndUsersGrow(s: Store, d: Delivery)
    requires Sound(s) && CarriedThrough(d)
    ensures var u := Deliver(s, d);
            && Keeps(s, u)
            && (forall e | e in u.users && e !in s.users :: AsksUser(PayloadSet(d.batch), e))
            && (forall k | k in u.orders && k !in s.orders :: AsksOrder(PayloadSet(d.batch), k))
            && (forall q | q in d.batch :: q.email in u.users && q.Key() in u.orders)
  {
    var t := AfterOrders(s, d.batch, d.cut.users, d.cut.orders);
    LinesBefore(s, d.batch, d.cut.users, d.cut.orders);
    LinesPhaseKeepsTheRest(t, d.cut.done, ResolveOrders(t, d.batch, SaleOrder(d.batch)));
  }

  lemma {:induction false} SafeLinesGrow(s: Store, d: Delivery, k: OrderKey, p: ProductId)
    requires Sound(s) && CarriedThrough(d) && forall q | q in d.batch :: Safe(s, d, q)
    ensures LinesGrow(s, PayloadSet(d.batch), Deliver(s, d), k, p)
  {
    LinesAfterwards(s, d, k, p);
    var price := FirstPrice(d.cut.done, k.email, p);
    if LineDocs(s, k, p) == [] && Wins(d.batch, k) && price.Some? {
      FirstPriceHasAPayload(d.cut.done, k.email, p);
      var q :| q in d.cut.done && q.email == k.email && q.productId == p;
      assert q in PayloadSet(d.cut.done) && q in PayloadSet(d.batch);
      assert Safe(s, d, q) && AskedFor(d, k, p);
      var r :| r in d.batch && Asks(r, k, p) && price == Some(r.price);
      assert r in PayloadSet(d.batch);
    }
  }

  lemma {:induction false} SafeIsRecorded(s: Store, d: Delivery, q: Payload)
    requires Sound(s) && CarriedThrough(d) && q in d.batch && Safe(s, d, q)
    ensures Recorded(Deliver(s, d), q)
  {
    OrdersAndUsersGrow(s, d);
    LinesAfterwards(s, d, q.Key(), q.productId);
    assert q in PayloadSet(d.batch) && q in PayloadSet(d.cut.done);
    FirstPriceIsSome(d.cut.done, q);
  }

  lemma {:induction false} RecordedIsSafe(s: Store, d: Delivery, q: Payload)
    requires Sound(s) && CarriedThrough(d) && q in d.batch && Records(s, PayloadSet(d.batch), Deliver(s, d))
    ensures Safe(s, d, q)
  {
    var u, p := Deliver(s, d), q.productId;
    assert q in PayloadSet(d.batch) && q in PayloadSet(d.cut.done);
    FirstPriceIsSome(d.cut.done, q);
    LinesAfterwards(s, d, q.Key(), p);
    forall k | Wins(d.batch, k) && k.email == q.email && LineDocs(s, k, p) == [] ensures AskedFor(d, k, p) {
      LinesAfterwards(s, d, k, p);
      assert LinesGrow(s, PayloadSet(d.batch), u, k, p);
      var r :| r in PayloadSet(d.batch) && Asks(r, k, p) && LineDocs(u, k, p) == [LineDoc(1, r.price)];
      assert r in d.batch && FirstPrice(d.cut.done, k.email, p) == Some(r.price);
    }
  }

  /** The batches the bulk write records correctly whatever the store are exactly
      those in which no email appears under two sales. */
  lemma {:induction false} RecordsEveryStoreIffOneSalePerEmail(b: seq<Payload>)
    ensures (forall s | Sound(s) :: Records(s, PayloadSet(b), Bulk(s, b))) <==> OneSalePerEmail(b)
  {
    if OneSalePerEmail(b) {
      forall s | Sound(s) ensures Records(s, PayloadSet(b), Bulk(s, b)) {
        BulkRecords(s, b);
      }
    } else {
      var q, r :| q in b && r in b && q.email == r.email && q.saleId != r.saleId;
      BulkIsADelivery(EMPTY, b);
      SecondSaleGetsNoLine(EMPTY, Delivery(b, InLines(b, b, b)), q, r);
      assert Sound(EMPTY) && q in PayloadSet(b) && r in PayloadSet(b);
    }
  }
}

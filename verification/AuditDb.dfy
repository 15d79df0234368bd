/** The audit collections as the mutable object both writers work on. */
module AuditDb {
  import opened Ids
  import opened AuditStore
  import opened BulkAudit
  import opened Recorder

  class AuditDb {
    var users: map<Email, nat>
    var orders: map<OrderKey, Order>
    var lines: map<LineRef, seq<LineDoc>>
    var nextId: nat

    function Contents(): Store
      reads this
    {
      Store(users, orders, lines, nextId)
    }

    constructor ()
      ensures Contents() == EMPTY
    {
      users, orders, lines, nextId := map[], map[], map[], 0;
    }

    /** updateOne { identifier } with $setOnInsert and upsert. */
    method UpsertUserDoc(e: Email)
      modifies this`users, this`nextId
      ensures Contents() == UpsertUser(old(Contents()), e)
    {
      if e !in users {
        users, nextId := users[e := nextId], nextId + 1;
      }
    }

    /** updateOne { saleId, email } with $setOnInsert and upsert. */
    method UpsertOrderDoc(k: OrderKey, userId: nat)
      modifies this`orders, this`nextId
      ensures Contents() == UpsertOrder(old(Contents()), k, userId)
    {
      if k !in orders {
        orders, nextId := orders[k := Order(nextId, userId)], nextId + 1;
      }
    }

    /** updateOne { orderId, productId } with $setOnInsert and upsert. */
    method UpsertLineDoc(r: LineRef, price: int)
      modifies this`lines
      ensures Contents() == UpsertLine(old(Contents()), r, price)
    {
      if r !in lines {
        lines := lines[r := [LineDoc(1, price)]];
      }
    }

    /** Phase by phase. Records every payload of a batch that keeps each email
        under one sale, and changes nothing recorded before. */
    method BulkRecordOrders(payloads: seq<Payload>)
      modifies this
      ensures Contents() == Bulk(old(Contents()), payloads)
      ensures old(Sound(Contents())) && OneSalePerEmail(payloads)
              ==> Sound(Contents()) && Records(old(Contents()), PayloadSet(payloads), Contents())
    {
      if |payloads| != 0 {
        WritePhases(payloads);
      }
      BulkRecordsAny(old(Contents()), payloads);
    }

    method WritePhases(payloads: seq<Payload>)
      modifies this
      ensures Contents() == Stopped(old(Contents()), payloads, InLines(payloads, payloads, payloads))
    {
      WriteUsers(payloads);
      var userIdByEmail := FindUserIds(payloads);
      WriteOrders(payloads, userIdByEmail);
      var orderIdByEmail := FindOrderIds(payloads);
      WriteLines(payloads, orderIdByEmail);
    }

    /** The same call when the connection dies part-way: the upserts named by
        `cut` were applied, and the caller sees an error. */
    method InterruptedBulkWrite(payloads: seq<Payload>, cut: Cut)
      requires ValidCut(payloads, cut)
      modifies this
      ensures Contents() == Stopped(old(Contents()), payloads, cut)
    {
      if cut.InUsers? {
        WriteUsers(cut.done);
        return;
      }
      WriteUsers(cut.users);
      var userIdByEmail := FindUserIds(payloads);
      ghost var orders := if cut.InOrders? then cut.done else cut.orders;
      assert forall q | q in orders :: q in PayloadSet(orders) && q in PayloadSet(cut.users);
      WriteOrders(if cut.InOrders? then cut.done else cut.orders, userIdByEmail);
      if cut.InLines? {
        var orderIdByEmail := FindOrderIds(payloads);
        WriteLines(cut.done, orderIdByEmail);
      }
    }

    method WriteUsers(payloads: seq<Payload>)
      modifies this`users, this`nextId
      ensures Contents() == UpsertUsers(old(Contents()), payloads)
    {
      for i := 0 to |payloads|
        invariant Contents() == UpsertUsers(old(Contents()), payloads[..i])
      {
        UpsertUserDoc(payloads[i].email);
        assert payloads[..i + 1][..i] == payloads[..i];
      }
      assert payloads[..|payloads|] == payloads;
    }

    method FindUserIds(payloads: seq<Payload>) returns (userIdByEmail: map<Email, nat>)
      ensures userIdByEmail == ResolveUsers(Contents(), payloads)
    {
      userIdByEmail := map e | e in (set q | q in payloads :: q.email) && e in users :: users[e];
    }

    method WriteOrders(payloads: seq<Payload>, userIdByEmail: map<Email, nat>)
      requires forall q | q in payloads :: q.email in userIdByEmail
      modifies this`orders, this`nextId
      ensures Contents() == UpsertOrders(old(Contents()), payloads, userIdByEmail)
    {
      for i := 0 to |payloads|
        invariant Contents() == UpsertOrders(old(Contents()), payloads[..i], userIdByEmail)
      {
        UpsertOrderDoc(payloads[i].Key(), userIdByEmail[payloads[i].email]);
        assert payloads[..i + 1][..i] == payloads[..i];
      }
      assert payloads[..|payloads|] == payloads;
    }

    /** A payload whose order was not found is skipped. */
    method WriteLines(payloads: seq<Payload>, orderIdByEmail: map<Email, nat>)
      modifies this`lines
      ensures Contents() == UpsertLines(old(Contents()), payloads, orderIdByEmail)
    {
      for i := 0 to |payloads|
        invariant Contents() == UpsertLines(old(Contents()), payloads[..i], orderIdByEmail)
      {
        var q := payloads[i];
        if q.email in orderIdByEmail {
          UpsertLineDoc(LineRef(orderIdByEmail[q.email], q.productId), q.price);
        }
        assert payloads[..i + 1][..i] == payloads[..i];
      }
      assert payloads[..|payloads|] == payloads;
    }

    /** The emails under each sale, the sales in order of first appearance. */
    method GroupBySale(payloads: seq<Payload>) returns (sales: seq<SaleId>, bySaleId: map<SaleId, seq<Email>>)
      ensures sales == SaleOrder(payloads)
      ensures forall sale :: sale in sales <==> sale in bySaleId
      ensures forall sale, e :: EmailUnder(bySaleId, sale, e) <==> e in EmailsUnder(payloads, sale)
    {
      sales, bySaleId := [], map[];
      for i := 0 to |payloads|
        invariant sales == SaleOrder(payloads[..i])
        invariant forall sale :: sale in sales <==> sale in bySaleId
        invariant forall sale, e :: EmailUnder(bySaleId, sale, e) <==> e in EmailsUnder(payloads[..i], sale)
      {
        var q := payloads[i];
        assert payloads[..i + 1][..i] == payloads[..i];
        assert payloads[..i + 1] == payloads[..i] + [q];
        ghost var was := bySaleId;
        if q.saleId in bySaleId {
          bySaleId := bySaleId[q.saleId := bySaleId[q.saleId] + [q.email]];
        } else {
          bySaleId := bySaleId[q.saleId := [q.email]];
          sales := sales + [q.saleId];
        }
        forall sale, e ensures EmailUnder(bySaleId, sale, e) <==> e in EmailsUnder(payloads[..i + 1], sale) {
          assert EmailUnder(was, sale, e) <==> e in EmailsUnder(payloads[..i], sale);
        }
      }
      assert payloads[..|payloads|] == payloads;
    }

    /** One query a sale, flattened by email. */
    method FindOrderIds(payloads: seq<Payload>) returns (orderIdByEmail: map<Email, nat>)
      ensures orderIdByEmail == ResolveOrders(Contents(), payloads, SaleOrder(payloads))
    {
      var sales, bySaleId := GroupBySale(payloads);
      orderIdByEmail := map[];
      for j := 0 to |sales|
        invariant orderIdByEmail == ResolveOrders(Contents(), payloads, sales[..j])
      {
        var sale := sales[j];
        var found := map e | e in bySaleId[sale] && OrderKey(sale, e) in orders :: orders[OrderKey(sale, e)].id;
        assert found == OrdersUnder(Contents(), payloads, sale) by {
          assert forall e :: EmailUnder(bySaleId, sale, e) <==> e in EmailsUnder(payloads, sale);
        }
        orderIdByEmail := orderIdByEmail + found;
        assert sales[..j + 1][..j] == sales[..j];
      }
      assert sales[..|sales|] == sales;
    }

    /** User, then order, then line; a duplicate order ends the call. */
    method RecordOrderNow(k: OrderKey, productId: ProductId, price: int)
      modifies this
      ensures Contents() == RecordOrder(old(Contents()), k, productId, price)
    {
      UpsertUserDoc(k.email);
      if k in orders {
        return;
      }
      UpsertOrderDoc(k, users[k.email]);
      var r := LineRef(orders[k].id, productId);
      lines := lines[r := (if r in lines then lines[r] else []) + [LineDoc(1, price)]];
    }
  }

  ghost predicate EmailUnder(bySaleId: map<SaleId, seq<Email>>, sale: SaleId, e: Email) {
    sale in bySaleId && e in bySaleId[sale]
  }

  lemma {:induction false} BulkRecordsAny(s: Store, b: seq<Payload>)
    ensures Sound(s) && OneSalePerEmail(b) ==> Sound(Bulk(s, b)) && Records(s, PayloadSet(b), Bulk(s, b))
  {
    if Sound(s) && OneSalePerEmail(b) {
      BulkRecords(s, b);
    }
  }
}

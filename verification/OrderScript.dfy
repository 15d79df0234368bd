/**
 The atomic order decision (server/src/adapters/redis/order.lua and its port in
 server/test/helpers/fake-redis.ts) and the Redis keyspace it runs on.
 */
module OrderScript {
  import opened Ids

  datatype Key = StockKey(saleId: SaleId) | OrdersKey(saleId: SaleId) | FlatStockKey | FlatOrdersKey

  /** A string value: an integer, or text that is no number (`tonumber` refuses
      "12x" as it does "x"). */
  datatype Raw = Number(n: int) | Text

  datatype Verdict = OK | ALREADY | SOLD_OUT

  /** `Garbled` is no pair of a known verdict and a number; the script never
      answers so, but a reply may arrive so. */
  datatype Reply = Reply(verdict: Verdict, remaining: int) | MissingStock | Garbled

  /** The two sale-scoped keys, read as the script reads them. */
  datatype SaleState = SaleState(stock: Option<int>, buyers: set<Email>)

  datatype Decision = Decision(state: SaleState, reply: Reply)

  /** Missing stock, then membership, then stock, then SADD with DECR. */
  function Decide(s: SaleState, e: Email): Decision {
    if s.stock.None? then Decision(s, MissingStock)
    else if e in s.buyers then Decision(s, Reply(ALREADY, s.stock.value))
    else if s.stock.value <= 0 then Decision(s, Reply(SOLD_OUT, s.stock.value))
    else Decision(SaleState(Some(s.stock.value - 1), s.buyers + {e}), Reply(OK, s.stock.value - 1))
  }

  class RedisDb {
    var kv: map<Key, Raw>
    var sets: map<Key, set<Email>>

    constructor ()
      ensures kv == map[] && sets == map[]
    {
      kv, sets := map[], map[];
    }

    function View(sale: SaleId): SaleState
      reads this
    {
      SaleState(
        if StockKey(sale) in kv && kv[StockKey(sale)].Number? then Some(kv[StockKey(sale)].n) else None,
        if OrdersKey(sale) in sets then sets[OrdersKey(sale)] else {})
    }

    /** Runs as one unit. Decides for its own sale and leaves every other key of
        the keyspace, so every other sale, as it was. */
    method RunOrderScript(sale: SaleId, email: Email) returns (reply: Reply)
      modifies this
      ensures Decision(View(sale), reply) == Decide(old(View(sale)), email)
      ensures forall k | k != StockKey(sale) :: (k in kv <==> k in old(kv)) && (k in kv ==> kv[k] == old(kv[k]))
      ensures forall k | k != OrdersKey(sale) ::
                (k in sets <==> k in old(sets)) && (k in sets ==> sets[k] == old(sets[k]))
      ensures forall other | other != sale :: View(other) == old(View(other))
      ensures !reply.Reply? || reply.verdict != OK ==> kv == old(kv) && sets == old(sets)
    {
      var stockKey, ordersKey := StockKey(sale), OrdersKey(sale);
      if stockKey !in kv || kv[stockKey].Text? {
        return MissingStock;
      }
      var stock := kv[stockKey].n;
      var members := if ordersKey in sets then sets[ordersKey] else {};
      if email in members {
        return Reply(ALREADY, stock);
      }
      if stock <= 0 {
        return Reply(SOLD_OUT, stock);
      }
      sets := sets[ordersKey := members + {email}];
      var remaining := stock - 1;
      kv := kv[stockKey := Number(remaining)];
      return Reply(OK, remaining);
    }
  }

  /** Units sold and units left. */
  function Capacity(s: SaleState): int {
    |s.buyers| + (if s.stock.Some? then s.stock.value else 0)
  }

  /** Each verdict by the state it was made in, with the count it leaves behind. */
  lemma {:induction false} VerdictIsExact(s: SaleState, e: Email)
    ensures var d := Decide(s, e);
            && (d.reply == MissingStock <==> s.stock.None?)
            && (s.stock.Some? ==>
                  && d.reply.Reply? && d.state.stock == Some(d.reply.remaining)
                  && (d.reply.verdict == ALREADY <==> e in s.buyers)
                  && (d.reply.verdict == OK <==> e !in s.buyers && s.stock.value > 0)
                  && (d.reply.verdict == SOLD_OUT <==> e !in s.buyers && s.stock.value <= 0)
                  && d.reply.remaining == (if d.reply.verdict == OK then s.stock.value - 1 else s.stock.value))
  {
  }

  /** The decision sells a unit only by moving it from stock to a new buyer. */
  lemma {:induction false} DecideConserves(s: SaleState, e: Email)
    ensures var d := Decide(s, e);
            && Capacity(d.state) == Capacity(s)
            && s.buyers <= d.state.buyers <= s.buyers + {e}
            && (s.stock.Some? && s.stock.value >= 0 ==> d.state.stock.Some? && d.state.stock.value >= 0)
            && (d.reply.Reply? && d.reply.verdict == OK <==> e !in s.buyers && e in d.state.buyers)
  {
    if e !in s.buyers {
      assert |s.buyers + {e}| == |s.buyers| + 1;
    }
  }
}

/**
 The stress harness's verdict (stress/verify.ts) and what the whole pipeline
 makes of it.
 */
module Judge {
  import opened Ids
  import opened OrderScript
  import AuditStore
  import Pipeline

  datatype Observed = Observed(
    orders: int,
    distinctEmails: int,
    orderUsers: int,
    stockRemaining: Option<int>,
    apiStockQuantity: int)

  datatype Expected = Expected(stockQuantity: int, attempts: int, auditTolerance: Option<int>)

  datatype Check = SoldExactly | NoDuplicates | AuditClose | StockAgrees | QuantityAgrees

  datatype CheckResult = CheckResult(check: Check, pass: bool)

  function Min(a: int, b: int): int {
    if a <= b then a else b
  }

  function Max(a: int, b: int): int {
    if a >= b then a else b
  }

  /** One percent of the target, rounded up, but at least one order. The source
      multiplies by a binary 0.01; see `DefaultToleranceIsExact`. */
  function Tolerance(e: Expected, target: int): int {
    if e.auditTolerance.Some? then e.auditTolerance.value else Max(1, (target + 99) / 100)
  }

  /** The double nearest to 0.01: 53 significant bits, a little more than 0.01. */
  const ONE_PERCENT := 5_764_607_523_034_235.0 / 576_460_752_303_423_488.0

  const TWO_TO_THE_53 := 9_007_199_254_740_992.0

  function Distance(a: real, b: real): real {
    if a >= b then a - b else b - a
  }

  /** What rounding to the nearest double guarantees of `p`, rounded from `x`, next
      to the double `k` (sections 3.4 and 4.3.1 of IEEE 754): it is within half a
      unit in the last place, no further away than `k`, and either is `k` or is at
      least one place away from it. */
  predicate RoundedNear(p: real, x: real, k: real) {
    && Distance(p, x) * TWO_TO_THE_53 <= x
    && Distance(p, x) <= Distance(k, x)
    && (p == k || Distance(p, k) * TWO_TO_THE_53 >= k)
  }

  /** The allowed shortfall in whole orders: what was set, or else one order or one
      percent, begun percents counting in full. */
  predicate WithinTolerance(e: Expected, missing: int, target: int) {
    match e.auditTolerance
    case Some(most) => missing <= most
    case None => missing <= 1 || 100 * (missing - 1) < target
  }

  lemma {:induction false} ToleranceInWords(e: Expected, missing: int, target: int)
    ensures missing <= Tolerance(e, target) <==> WithinTolerance(e, missing, target)
  {
  }

  function Ceiling(p: real): int {
    -((-p).Floor)
  }

  /** The product of any target up to 2^50 with the binary 0.01, rounded and then
      taken up to an integer, is the exact one percent rounded up. */
  lemma {:induction false} DefaultToleranceIsExact(target: nat, p: real)
    requires target <= 1_125_899_906_842_624
    requires RoundedNear(p, target as real * ONE_PERCENT, (target / 100) as real)
    ensures Ceiling(p) == (target + 99) / 100
  {
    var k, rest := target / 100, target % 100;
    var x := target as real * ONE_PERCENT;
    assert target as real == 100.0 * (k as real) + rest as real;
    if rest == 0 {
      assert p == k as real;
    } else {
      assert k as real < p < k as real + 1.0;
    }
  }

  function Evaluate(o: Observed, e: Expected): seq<CheckResult> {
    var accepted := o.orderUsers;
    var target := Min(o.apiStockQuantity, e.attempts);
    var auditUnder := accepted - o.orders;
    [ CheckResult(SoldExactly, accepted == target),
      CheckResult(NoDuplicates, o.distinctEmails == o.orders),
      CheckResult(AuditClose, o.orders <= accepted && auditUnder <= Tolerance(e, target)),
      CheckResult(StockAgrees, o.stockRemaining == Some(o.apiStockQuantity - accepted)),
      CheckResult(QuantityAgrees, e.stockQuantity == o.apiStockQuantity) ]
  }

  predicate Passed(results: seq<CheckResult>) {
    forall r | r in results :: r.pass
  }

  // ---- exact sell-through ----

  /** Of the emails `tried`, as many bought as stock allowed. */
  ghost predicate SoldThrough(stock: nat, sale: SaleState, tried: set<Email>) {
    && sale.buyers <= tried
    && |sale.buyers| == Min(stock, |tried|)
    && sale.stock == Some(stock - |sale.buyers|)
  }

  lemma {:induction false} OneMoreAttempt(stock: nat, sale: SaleState, tried: set<Email>, e: Email)
    requires SoldThrough(stock, sale, tried)
    ensures SoldThrough(stock, Decide(sale, e).state, tried + {e})
  {
    if e in tried {
      assert tried + {e} == tried;
      if e !in sale.buyers {
        Pipeline.SubsetSize(sale.buyers, tried - {e});
      }
    } else {
      assert |tried + {e}| == |tried| + 1;
    }
  }

  function TriedBy(tried: set<Email>, step: Pipeline.Step): set<Email> {
    if step.Attempt? then tried + {step.email} else tried
  }

  function TriedAfter(tried: set<Email>, steps: seq<Pipeline.Step>): set<Email>
    decreases |steps|
  {
    if steps == [] then tried else TriedAfter(TriedBy(tried, steps[0]), steps[1..])
  }

  /** The distinct emails that attempted an order. */
  function Tried(steps: seq<Pipeline.Step>): set<Email> {
    TriedAfter({}, steps)
  }

  lemma {:induction false} TriedAreTheAttempts(tried: set<Email>, steps: seq<Pipeline.Step>, e: Email)
    ensures e in TriedAfter(tried, steps)
            <==> e in tried || exists i :: 0 <= i < |steps| && steps[i].Attempt? && steps[i].email == e
    decreases |steps|
  {
    if steps != [] {
      var tail := steps[1..];
      TriedAreTheAttempts(TriedBy(tried, steps[0]), tail, e);
      assert forall i | 0 <= i < |tail| :: tail[i] == steps[i + 1];
      assert forall i | 0 < i < |steps| :: steps[i] == tail[i - 1];
    }
  }

  lemma {:induction false} OnlyAttemptsTouchTheSale(u: Pipeline.Setup, s: Pipeline.Sys, step: Pipeline.Step)
    requires Pipeline.Enabled(s, step)
    ensures Pipeline.Apply(u, s, step).sale == if step.Attempt? then Decide(s.sale, step.email).state else s.sale
  {
  }

  lemma {:induction false} StepSellsThrough(u: Pipeline.Setup, s: Pipeline.Sys, tried: set<Email>, step: Pipeline.Step)
    requires Pipeline.Enabled(s, step) && SoldThrough(u.stock, s.sale, tried)
    ensures SoldThrough(u.stock, Pipeline.Apply(u, s, step).sale, TriedBy(tried, step))
  {
    OnlyAttemptsTouchTheSale(u, s, step);
    if step.Attempt? {
      OneMoreAttempt(u.stock, s.sale, tried, step.email);
    }
  }

  lemma {:induction false} RunSellsThrough(
      u: Pipeline.Setup, s: Pipeline.Sys, tried: set<Email>, steps: seq<Pipeline.Step>)
    requires Pipeline.ValidRun(u, s, steps) && SoldThrough(u.stock, s.sale, tried)
    ensures SoldThrough(u.stock, Pipeline.After(u, s, steps).sale, TriedAfter(tried, steps))
    decreases |steps|
  {
    if steps != [] {
      StepSellsThrough(u, s, tried, steps[0]);
      RunSellsThrough(u, Pipeline.Apply(u, s, steps[0]), TriedBy(tried, steps[0]), steps[1..]);
    }
  }

  /** Whatever crashed or got lost on the way, a sale of S units that d distinct
      emails tried to buy ends with min(S, d) buyers and the rest in stock. */
  lemma {:induction false} ExactSellThrough(u: Pipeline.Setup, s0: Pipeline.Sys, steps: seq<Pipeline.Step>)
    requires Pipeline.Init(u, s0) && Pipeline.ValidRun(u, s0, steps)
    ensures var sale := Pipeline.After(u, s0, steps).sale;
            && |sale.buyers| == Min(u.stock, |Tried(steps)|)
            && sale.stock == Some(u.stock - |sale.buyers|)
            && sale.buyers <= Tried(steps)
    ensures forall e :: e in Tried(steps) <==> exists i :: 0 <= i < |steps| && steps[i].Attempt? && steps[i].email == e
  {
    RunSellsThrough(u, s0, {}, steps);
    forall e ensures e in Tried(steps) <==> exists i :: 0 <= i < |steps| && steps[i].Attempt? && steps[i].email == e {
      TriedAreTheAttempts({}, steps, e);
    }
  }

  // ---- the verdict on the pipeline ----

  /** The states `observe` makes its readings in, one after another. */
  datatype Readings = Readings(orders: Pipeline.Sys, emails: Pipeline.Sys, buyers: Pipeline.Sys, stock: Pipeline.Sys)

  ghost predicate InTurn(u: Pipeline.Setup, r: Readings) {
    && Pipeline.Reachable(u, r.orders)
    && Pipeline.Later(u, r.orders, r.emails) && Pipeline.Later(u, r.emails, r.buyers)
    && Pipeline.Later(u, r.buyers, r.stock)
  }

  /** An (email, sale) pair has one order at most, so counting orders and counting
      distinct emails is the same count. */
  ghost function Observe(u: Pipeline.Setup, r: Readings): Observed {
    Observed(
      |Pipeline.OrderEmails(r.orders.store, u.saleId)|,
      |Pipeline.OrderEmails(r.emails.store, u.saleId)|,
      |r.buyers.sale.buyers|,
      r.stock.sale.stock,
      u.stock)
  }

  /** What it reads once the pipeline has come to rest. */
  ghost function Observation(u: Pipeline.Setup, s: Pipeline.Sys): Observed {
    Observe(u, Readings(s, s, s, s))
  }

  lemma {:induction false} PassedMeans(o: Observed, e: Expected)
    ensures Passed(Evaluate(o, e)) <==>
              && o.orderUsers == Min(o.apiStockQuantity, e.attempts)
              && o.stockRemaining == Some(o.apiStockQuantity - o.orderUsers)
              && o.distinctEmails == o.orders
              && o.orders <= o.orderUsers && WithinTolerance(e, o.orderUsers - o.orders, o.orderUsers)
              && e.stockQuantity == o.apiStockQuantity
  {
    var results := Evaluate(o, e);
    assert forall i {:trigger results[i]} | 0 <= i < |results| :: results[i] in results;
  }

  predicate Checks(results: seq<CheckResult>, check: Check) {
    exists r :: r in results && r.check == check
  }

  /** Each named check by what it compares, all five being there. */
  lemma {:induction false} ChecksAreExact(o: Observed, e: Expected, r: CheckResult)
    ensures |Evaluate(o, e)| == 5 && forall check: Check :: Checks(Evaluate(o, e), check)
    ensures r in Evaluate(o, e) ==>
              (r.pass <==>
               match r.check
               case SoldExactly => o.orderUsers == Min(o.apiStockQuantity, e.attempts)
               case NoDuplicates => o.distinctEmails == o.orders
               case AuditClose =>
                 && o.orders <= o.orderUsers
                 && WithinTolerance(e, o.orderUsers - o.orders, Min(o.apiStockQuantity, e.attempts))
               case StockAgrees => o.stockRemaining == Some(o.apiStockQuantity - o.orderUsers)
               case QuantityAgrees => e.stockQuantity == o.apiStockQuantity)
  {
    var results := Evaluate(o, e);
    forall check: Check ensures Checks(results, check) {
      var i := match check
        case SoldExactly => 0
        case NoDuplicates => 1
        case AuditClose => 2
        case StockAgrees => 3
        case QuantityAgrees => 4;
      assert results[i] in results && results[i].check == check;
    }
  }

  /** Accepted and not audited, lost or still on the way. */
  function Missing(u: Pipeline.Setup, s: Pipeline.Sys): set<Email> {
    s.sale.buyers - Pipeline.OrderEmails(s.store, u.saleId)
  }

  lemma {:induction false} MissingCounts(u: Pipeline.Setup, s: Pipeline.Sys)
    requires Pipeline.Reachable(u, s)
    ensures |Missing(u, s)| == |s.sale.buyers| - |Pipeline.OrderEmails(s.store, u.saleId)| >= 0
    ensures s.lost <= Missing(u, s)
  {
    var orders := Pipeline.OrderEmails(s.store, u.saleId);
    Pipeline.ReachableInv(u, s);
    assert Pipeline.Holds(Pipeline.BuyersPart, u, s);
    forall e | e in orders ensures e in s.sale.buyers && e !in s.lost {
      Pipeline.OrdersAreBuyers(u, s, AuditStore.OrderKey(u.saleId, e));
      Pipeline.OrderHasEntry(u, s, AuditStore.OrderKey(u.saleId, e));
    }
    Pipeline.SubsetSize(orders, s.sale.buyers);
  }

  lemma {:induction false} SameSize<T>(a: set<T>, b: set<T>)
    requires a <= b
    ensures |a| == |b| <==> a == b
  {
    Pipeline.SubsetSize(a, b);
  }

  lemma {:induction false} ReadingsGrow(u: Pipeline.Setup, r: Readings)
    requires InTurn(u, r)
    ensures Pipeline.Reachable(u, r.buyers) && Pipeline.Reachable(u, r.stock)
    ensures var before := Pipeline.OrderEmails(r.orders.store, u.saleId);
            var after := Pipeline.OrderEmails(r.emails.store, u.saleId);
            && before <= after <= Pipeline.OrderEmails(r.stock.store, u.saleId)
            && |before| <= |r.buyers.sale.buyers|
    ensures r.buyers.sale.buyers <= r.stock.sale.buyers
  {
    Pipeline.LaterGrows(u, r.orders, r.emails);
    Pipeline.LaterGrows(u, r.emails, r.buyers);
    Pipeline.LaterGrows(u, r.buyers, r.stock);
    Pipeline.NoOversellInMongo(u, r.orders);
    Pipeline.SubsetSize(r.orders.sale.buyers, r.buyers.sale.buyers);
  }

  lemma {:induction false} PassIff(u: Pipeline.Setup, r: Readings, e: Expected)
    requires InTurn(u, r)
    ensures Passed(Evaluate(Observe(u, r), e)) <==>
              && e.stockQuantity == u.stock
              && |r.buyers.sale.buyers| == Min(u.stock, e.attempts) && r.stock.sale.buyers == r.buyers.sale.buyers
              && Pipeline.OrderEmails(r.emails.store, u.saleId) == Pipeline.OrderEmails(r.orders.store, u.saleId)
              && WithinTolerance(
                   e, |r.buyers.sale.buyers| - |Pipeline.OrderEmails(r.orders.store, u.saleId)|, |r.buyers.sale.buyers|)
  {
    ReadingsGrow(u, r);
    StockLeft(u, r.stock);
    PassedMeans(Observe(u, r), e);
    SameSize(Pipeline.OrderEmails(r.orders.store, u.saleId), Pipeline.OrderEmails(r.emails.store, u.saleId));
    SameSize(r.buyers.sale.buyers, r.stock.sale.buyers);
  }

  lemma {:induction false} LostAreMissing(u: Pipeline.Setup, s: Pipeline.Sys)
    requires Pipeline.Reachable(u, s)
    ensures |s.lost| <= |Missing(u, s)|
  {
    MissingCounts(u, s);
    Pipeline.SubsetSize(s.lost, Missing(u, s));
  }

  lemma {:induction false} AuditGrows(u: Pipeline.Setup, r: Readings)
    requires InTurn(u, r)
    ensures Pipeline.Reachable(u, r.stock)
    ensures |Pipeline.OrderEmails(r.orders.store, u.saleId)| <= |Pipeline.OrderEmails(r.stock.store, u.saleId)|
  {
    ReadingsGrow(u, r);
    Pipeline.SubsetSize(Pipeline.OrderEmails(r.orders.store, u.saleId), Pipeline.OrderEmails(r.stock.store, u.saleId));
  }

  lemma {:induction false} PassBounds(u: Pipeline.Setup, r: Readings)
    requires InTurn(u, r) && r.stock.sale.buyers == r.buyers.sale.buyers
    ensures r.stock.sale.stock == Some(u.stock - |r.stock.sale.buyers|)
    ensures |r.stock.lost| <= |Missing(u, r.stock)|
    ensures |Missing(u, r.stock)| <= |r.buyers.sale.buyers| - |Pipeline.OrderEmails(r.orders.store, u.saleId)|
  {
    AuditGrows(u, r);
    StockLeft(u, r.stock);
    LostAreMissing(u, r.stock);
    MissingCounts(u, r.stock);
  }

  /** Whenever the four readings are taken and whatever goes on between them: a
      run passes if and only if the harness knew the stock, the sale sold through
      exactly, nobody bought between the two Redis readings, no order was audited
      between the two MongoDB readings, and the audit lacked no more than the
      tolerance. A pass still holds of the last state: what its audit lacks, the
      lost orders included, is within the tolerance. */
  lemma {:induction false} PassMeansSellThrough(u: Pipeline.Setup, r: Readings, e: Expected)
    requires InTurn(u, r)
    ensures Passed(Evaluate(Observe(u, r), e)) <==>
              && e.stockQuantity == u.stock
              && |r.buyers.sale.buyers| == Min(u.stock, e.attempts) && r.stock.sale.buyers == r.buyers.sale.buyers
              && Pipeline.OrderEmails(r.emails.store, u.saleId) == Pipeline.OrderEmails(r.orders.store, u.saleId)
              && WithinTolerance(
                   e, |r.buyers.sale.buyers| - |Pipeline.OrderEmails(r.orders.store, u.saleId)|, |r.buyers.sale.buyers|)
    ensures Passed(Evaluate(Observe(u, r), e)) ==>
              && r.stock.sale.stock == Some(u.stock - |r.stock.sale.buyers|)
              && |r.stock.lost| <= |Missing(u, r.stock)|
              && WithinTolerance(e, |Missing(u, r.stock)|, |r.stock.sale.buyers|)
  {
    PassIff(u, r, e);
    if Passed(Evaluate(Observe(u, r), e)) {
      PassBounds(u, r);
    }
  }

  /** At rest the readings are of one state. */
  lemma {:induction false} RestingPass(u: Pipeline.Setup, s: Pipeline.Sys, e: Expected)
    requires Pipeline.Reachable(u, s)
    ensures Passed(Evaluate(Observation(u, s), e)) <==>
              && e.stockQuantity == u.stock
              && |s.sale.buyers| == Min(u.stock, e.attempts)
              && WithinTolerance(e, |Missing(u, s)|, |s.sale.buyers|)
  {
    Pipeline.LaterSame(u, s);
    MissingCounts(u, s);
    PassMeansSellThrough(u, Readings(s, s, s, s), e);
  }

  lemma {:induction false} StockLeft(u: Pipeline.Setup, s: Pipeline.Sys)
    requires Pipeline.Reachable(u, s)
    ensures s.sale.stock == Some(u.stock - |s.sale.buyers|)
  {
    Pipeline.ReachableInv(u, s);
    assert Pipeline.Holds(Pipeline.DecisionPart, u, s);
  }

  /** A drained run passes exactly when the harness expected its stock and as many
      buyers as its distinct emails make, and the orders lost between verdict and
      queue are within tolerance. */
  lemma {:induction false} DrainedRunPassesIff(
      u: Pipeline.Setup, s0: Pipeline.Sys, steps: seq<Pipeline.Step>, e: Expected)
    requires Pipeline.ValidSetup(u) && Pipeline.Init(u, s0) && Pipeline.ValidRun(u, s0, steps)
    requires Pipeline.Drained(Pipeline.After(u, s0, steps))
    ensures var s := Pipeline.After(u, s0, steps);
            Passed(Evaluate(Observation(u, s), e)) <==>
              && e.stockQuantity == u.stock
              && Min(u.stock, |Tried(steps)|) == Min(u.stock, e.attempts)
              && WithinTolerance(e, |s.lost|, Min(u.stock, e.attempts))
  {
    var s := Pipeline.After(u, s0, steps);
    ExactSellThrough(u, s0, steps);
    Pipeline.DrainedAuditIsExact(u, s);
    RestingPass(u, s, e);
    MissingCounts(u, s);
  }

  /** With no tolerance for loss but nothing lost, it passes. */
  lemma {:induction false} LosslessRunPasses(
      u: Pipeline.Setup, s0: Pipeline.Sys, steps: seq<Pipeline.Step>, e: Expected)
    requires Pipeline.ValidSetup(u) && Pipeline.Init(u, s0) && Pipeline.ValidRun(u, s0, steps)
    requires Pipeline.Drained(Pipeline.After(u, s0, steps)) && Pipeline.After(u, s0, steps).lost == {}
    requires e.stockQuantity == u.stock && e.attempts == |Tried(steps)|
    requires e.auditTolerance.Some? ==> e.auditTolerance.value >= 0
    ensures Passed(Evaluate(Observation(u, Pipeline.After(u, s0, steps)), e))
  {
    DrainedRunPassesIff(u, s0, steps, e);
  }

  /** With retries counted as attempts, a correct run passes the first check
      exactly if nobody retried or the distinct emails used up the stock. */
  lemma {:induction false} RetriesFailTheFirstCheckIff(
      u: Pipeline.Setup, s0: Pipeline.Sys, steps: seq<Pipeline.Step>, e: Expected)
    requires Pipeline.Init(u, s0) && Pipeline.ValidRun(u, s0, steps) && e.attempts >= |Tried(steps)|
    ensures Evaluate(Observation(u, Pipeline.After(u, s0, steps)), e)[0].pass
            <==> e.attempts == |Tried(steps)| || u.stock <= |Tried(steps)|
  {
    ExactSellThrough(u, s0, steps);
  }

  /** Of any observation a pass rules out overselling, whatever was seeded and
      however many tried. */
  lemma {:induction false} PassedRulesOutOverselling(o: Observed, e: Expected)
    requires Passed(Evaluate(o, e))
    ensures o.orderUsers <= o.apiStockQuantity && o.orders <= o.apiStockQuantity
    ensures o.stockRemaining.Some? && o.stockRemaining.value >= 0
  {
    PassedMeans(o, e);
  }

  // ---- waiting for the drain ----

  /** Sample `i` agrees with the one before it on a non-zero count, not too soon. */
  predicate Settled(samples: seq<int>, minSamples: int, i: int)
    requires 0 < i < |samples|
  {
    samples[i] == samples[i - 1] && samples[i] > 0 && i >= minSamples
  }

  /** `samples[i]` is what the i-th count answers. Stops at the first settled one
      and gives up after `maxSamples`. */
  method PollUntilStable(samples: seq<int>, maxSamples: int, minSamples: int) returns (r: Option<int>, polled: nat)
    requires 1 <= |samples| && maxSamples <= |samples|
    ensures r.Some? ==>
              0 < polled - 1 < maxSamples && Settled(samples, minSamples, polled - 1) && r.value == samples[polled - 1]
    ensures r.None? ==> polled == Max(1, maxSamples)
    ensures forall i | 0 < i < polled - (if r.Some? then 1 else 0) :: !Settled(samples, minSamples, i)
  {
    var previous := samples[0];
    var i := 1;
    while i < maxSamples
      invariant 1 <= i <= Max(1, maxSamples)
      invariant previous == samples[i - 1]
      invariant forall j | 0 < j < i :: !Settled(samples, minSamples, j)
    {
      var current := samples[i];
      if current == previous && current > 0 && i >= minSamples {
        return Some(current), i + 1;
      }
      previous := current;
      i := i + 1;
    }
    return None, i;
  }

  /** A settled count is a plateau, not the end: it never overstates a growing
      audit, and equals its final count exactly if nothing was written after. */
  lemma {:induction false} SettledNeverOverstates(samples: seq<int>, minSamples: int, i: nat, last: nat)
    requires 0 < i <= last < |samples| && Settled(samples, minSamples, i)
    requires forall j | 0 <= j < last :: samples[j] <= samples[j + 1]
    ensures 0 < samples[i] <= samples[last]
    ensures samples[i] == samples[last] <==> forall j | i <= j < last :: samples[j] == samples[j + 1]
  {
    Grown(samples, i, last);
    forall j | i <= j < last ensures samples[i] == samples[last] ==> samples[j] == samples[j + 1] {
      Grown(samples, i, j);
      Grown(samples, j + 1, last);
    }
    if forall j | i <= j < last :: samples[j] == samples[j + 1] {
      Level(samples, i, last);
    }
  }

  lemma {:induction false} Grown(samples: seq<int>, i: nat, last: nat)
    requires i <= last < |samples| && forall j | i <= j < last :: samples[j] <= samples[j + 1]
    ensures samples[i] <= samples[last]
    decreases last - i
  {
    if i < last {
      Grown(samples, i + 1, last);
    }
  }

  lemma {:induction false} Level(samples: seq<int>, i: nat, last: nat)
    requires i <= last < |samples| && forall j | i <= j < last :: samples[j] == samples[j + 1]
    ensures samples[i] == samples[last]
    decreases last - i
  {
    if i < last {
      Level(samples, i + 1, last);
    }
  }
}

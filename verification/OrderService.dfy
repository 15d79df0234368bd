/**
 One order request (server/src/services/order.ts) on top of the script wrapper
 (server/src/adapters/redis/orders.ts), and what later requests and restarts
 make of its answer.
 */
module OrderService {
  import opened Ids
  import opened OrderScript
  import opened SaleStatus
  import Attempts
  import Boot

  /** `Unavailable` is the 503 every Redis failure surfaces as. */
  datatype Outcome =
    | Created(remaining: int)
    | Already(left: Option<int>)
    | NoneLeft(remaining: int)
    | Inactive
    | Unavailable

  datatype Effect =
    | Audit(sale: SaleId, email: Email)
    | Charge(email: Email)
    | PublishAccepted(sale: SaleId)
    | PublishSoldOut(sale: SaleId)

  /** What became of one command: whether the server worked it off, and whether
      its answer was back before the timeout. */
  datatype Trip = Trip(ran: bool, back: bool)

  datatype Served = Served(state: SaleState, outcome: Outcome)

  function OutcomeOf(reply: Reply): Outcome {
    match Attempts.ParseDecision(reply)
    case None => Unavailable
    case Some(r) =>
      match r.verdict
      case OK => Created(r.remaining)
      case ALREADY => Already(Some(r.remaining))
      case SOLD_OUT => NoneLeft(r.remaining)
  }

  /** One request whose commands all come back. */
  function Serve(s: SaleState, window: Window, now: int, e: Email): Served {
    if window.Contains(now) then
      var d := Decide(s, e);
      Served(d.state, OutcomeOf(d.reply))
    else Served(s, if e in s.buyers then Already(None) else Inactive)
  }

  /** Post-accept effects: on OK and only on OK. */
  function EffectsOf(sale: SaleId, e: Email, outcome: Outcome): seq<Effect> {
    if !outcome.Created? then []
    else [Audit(sale, e), Charge(e), PublishAccepted(sale)]
         + (if outcome.remaining == 0 then [PublishSoldOut(sale)] else [])
  }

  /** Who is told what, by the decision alone: with a readable reply an OK is audited
      and charged under the buyer's email and announced, exactly the OK that takes
      the last unit also announces the end, each at most once, and no other request
      has any effect. */
  lemma {:induction false} EffectsAreTheDecisions(sale: SaleId, s: SaleState, window: Window, now: int, e: Email)
    ensures var effects := EffectsOf(sale, e, Serve(s, window, now, e).outcome);
            var accepted := window.Contains(now) && e !in s.buyers && s.stock.Some? && s.stock.value > 0;
            && (Audit(sale, e) in effects <==> accepted) && (Charge(e) in effects <==> accepted)
            && (PublishAccepted(sale) in effects <==> accepted)
            && (PublishSoldOut(sale) in effects <==> accepted && s.stock.value == 1)
            && (forall f | f in effects ::
                  f in {Audit(sale, e), Charge(e), PublishAccepted(sale), PublishSoldOut(sale)})
            && forall i, j {:trigger effects[i], effects[j]} | 0 <= i < j < |effects| :: effects[i] != effects[j]
    ensures Serve(s, window, now, e).outcome.Created? <==>
              window.Contains(now) && e !in s.buyers && s.stock.Some? && s.stock.value > 0
  {
    var effects := EffectsOf(sale, e, Serve(s, window, now, e).outcome);
    if effects != [] {
      assert effects[0] == Audit(sale, e) && effects[1] == Charge(e) && effects[2] == PublishAccepted(sale);
      assert s.stock.value == 1 ==> effects[3] == PublishSoldOut(sale);
    }
  }

  // ---- the request as the process serves it ----

  /** The script wrapper and its cached digest. `loaded` is the server's side: the
      digests its script cache knows. */
  class OrderStore {
    const redis: RedisDb
    const digest: nat
    var sha: Option<nat>
    var loaded: set<nat>

    constructor (redis: RedisDb, digest: nat)
      ensures this.redis == redis && this.digest == digest && sha.None? && loaded == {}
    {
      this.redis, this.digest, sha, loaded := redis, digest, None, {};
    }

    /** SCRIPT LOAD; the digest is kept only when the answer comes back. */
    method LoadScript(trip: Trip)
      modifies this
      ensures loaded == if trip.ran then old(loaded) + {digest} else old(loaded)
      ensures sha == if trip.ran && trip.back then Some(digest) else old(sha)
    {
      if trip.ran {
        loaded := loaded + {digest};
        if trip.back {
          sha := Some(digest);
        }
      }
    }

    /** EVAL, which also leaves the script in the server's cache. */
    method Eval(sale: SaleId, email: Email, trip: Trip) returns (reply: Option<Reply>)
      modifies this`loaded, redis
      ensures redis.View(sale) == if trip.ran then Decide(old(redis.View(sale)), email).state else old(redis.View(sale))
      ensures reply == if trip.ran && trip.back then Some(Decide(old(redis.View(sale)), email).reply) else None
      ensures forall other | other != sale :: redis.View(other) == old(redis.View(other))
    {
      reply := None;
      if trip.ran {
        loaded := loaded + {digest};
        var r := redis.RunOrderScript(sale, email);
        if trip.back {
          reply := Some(r);
        }
      }
    }

    /** EVALSHA first, one EVAL after NOSCRIPT, 503 for everything that did not
        come back. Whatever the trips were, the script ran at most once, and a
        verdict is that run's verdict. */
    method Attempt(sale: SaleId, email: Email, first: Trip, fallback: Trip, reload: Trip) returns (r: Option<Reply>)
      modifies this, redis
      ensures redis.View(sale) == old(redis.View(sale))
              || redis.View(sale) == Decide(old(redis.View(sale)), email).state
      ensures r.Some? ==> Decision(redis.View(sale), r.value) == Decide(old(redis.View(sale)), email)
      ensures r.Some? ==> Attempts.ParseDecision(r.value) == r
      ensures first == fallback == Trip(true, true) ==>
                r == Attempts.ParseDecision(Decide(old(redis.View(sale)), email).reply)
      ensures forall other | other != sale :: redis.View(other) == old(redis.View(other))
    {
      var known := sha.Some? && sha.value in loaded;
      var reply: Option<Reply>;
      if sha.None? || known {
        reply := Eval(sale, email, first);
      } else if first.ran && first.back {
        reply := Eval(sale, email, fallback);
        if reply.Some? {
          LoadScript(reload);
        }
      } else {
        return None;
      }
      if reply.None? {
        return None;
      }
      return Attempts.ParseDecision(reply.value);
    }
  }

  class Service {
    const orders: OrderStore
    var effects: seq<Effect>

    constructor (orders: OrderStore)
      ensures this.orders == orders && effects == []
    {
      this.orders, effects := orders, [];
    }

    /** Window first; inside it the script decides, outside it one SISMEMBER
        (`probe`). An answer other than 503 is the answer of one atomic decision,
        and exactly an accepted order has effects. */
    method Attempt(
        sale: SaleId, window: Window, email: Email, now: int, probe: Trip, first: Trip, fallback: Trip, reload: Trip)
      returns (outcome: Outcome)
      modifies this, orders, orders.redis
      ensures var before, after := old(orders.redis.View(sale)), orders.redis.View(sale);
              var served := Serve(before, window, now, email);
              && (if outcome.Unavailable? then after == before || after == served.state
                  else Served(after, outcome) == served)
              && (probe == first == fallback == Trip(true, true) ==> outcome == served.outcome)
      ensures effects == old(effects) + EffectsOf(sale, email, outcome)
      ensures forall other | other != sale :: orders.redis.View(other) == old(orders.redis.View(other))
    {
      if !window.Contains(now) {
        if !probe.ran || !probe.back {
          return Unavailable;
        }
        if email in orders.redis.View(sale).buyers {
          return Already(None);
        }
        return Inactive;
      }
      var decision := orders.Attempt(sale, email, first, fallback, reload);
      if decision.None? {
        return Unavailable;
      }
      outcome := OutcomeOf(decision.value);
      if decision.value.verdict.OK? {
        effects := effects + [Audit(sale, email), Charge(email), PublishAccepted(sale)];
        if decision.value.remaining == 0 {
          effects := effects + [PublishSoldOut(sale)];
        }
      }
    }
  }

  // ---- the two views of the same instant ----

  /** The status page and the order button tell a newcomer the same, down to the
      count, and an inactive sale is one the clock puts before or after it. */
  predicate Agree(status: Option<Body>, outcome: Outcome, window: Window, now: int) {
    match outcome
    case Created(remaining) => status == Some(Body(Active, remaining + 1))
    case NoneLeft(remaining) => status == Some(Body(SoldOut, remaining))
    case Inactive =>
      status.Some? && status.value.status == (if now < window.startMs then Upcoming else Ended)
    case Unavailable => status.None?
    case Already(_) => false
  }

  /** They agree unless the stock key was tampered with (a negative count, which
      orders refuse and the status calls sold out) or is unreadable outside the
      window, where orders do not look at it. */
  lemma {:induction false} StatusAndVerdictAgreeIff(s: SaleState, window: Window, now: int, e: Email)
    requires e !in s.buyers
    ensures Agree(GetStatus(s.stock, now, window), Serve(s, window, now, e).outcome, window, now)
            <==> if window.Contains(now) then s.stock.Some? ==> s.stock.value >= 0 else s.stock.Some?
  {
    StatusIsExact(s.stock, now, window);
    var d := Decide(s, e);
    assert d.reply.Reply? <==> s.stock.Some?;
  }

  /** "An order holder always wins": at every clock value outside the window, where
      stock is not read, and inside it if and only if the count can be trusted. A
      holder's request never changes anything. */
  lemma {:induction false} HolderWinsIff(s: SaleState, window: Window, now: int, e: Email)
    requires e in s.buyers
    ensures Serve(s, window, now, e).outcome.Already?
            <==> !window.Contains(now) || (s.stock.Some? && s.stock.value >= 0)
    ensures Serve(s, window, now, e).outcome.Already? ==>
              Serve(s, window, now, e).outcome == Already(if window.Contains(now) then s.stock else None)
    ensures Serve(s, window, now, e).state == s
  {
    assert s.stock.Some? ==> Decide(s, e) == Decision(s, Reply(ALREADY, s.stock.value));
  }

  // ---- accepted once, accepted for good ----

  /** Requests of anyone at any clock value, answered or lost, and restarts that
      complete or die half-way. */
  datatype Happening =
    | Request(now: int, email: Email, ran: bool)
    | Restart(truth: Boot.Truth, cut: nat)

  function StateOf(k: Boot.Keys): SaleState {
    SaleState(
      if k.stock.Some? && k.stock.value.Number? then Some(k.stock.value.n) else None,
      Boot.Members(k.orders))
  }

  function WithState(k: Boot.Keys, s: SaleState): Boot.Keys {
    if s == StateOf(k) || s.stock.None? then k
    else k.(stock := Some(Number(s.stock.value)), orders := Some(s.buyers))
  }

  function Happen(k: Boot.Keys, window: Window, h: Happening): Boot.Keys {
    match h
    case Request(now, e, ran) => if ran then WithState(k, Serve(StateOf(k), window, now, e).state) else k
    case Restart(truth, cut) => Boot.BootUntil(k, truth, cut)
  }

  function HappenAll(k: Boot.Keys, window: Window, hs: seq<Happening>): Boot.Keys
    decreases |hs|
  {
    if hs == [] then k else HappenAll(Happen(k, window, hs[0]), window, hs[1..])
  }

  /** A request that ran leaves in the keys exactly what its decision left, and one
      that did not, nothing; flat keys are no business of it. */
  lemma {:induction false} RequestWritesItsDecision(k: Boot.Keys, window: Window, now: int, e: Email)
    ensures StateOf(Happen(k, window, Request(now, e, true))) == Serve(StateOf(k), window, now, e).state
    ensures Happen(k, window, Request(now, e, false)) == k
    ensures var after := Happen(k, window, Request(now, e, true));
            after.flatStock == k.flatStock && after.flatOrders == k.flatOrders
  {
    DecideConserves(StateOf(k), e);
  }

  /** The live keys are healthy and `e` holds an order. */
  predicate Holds(k: Boot.Keys, e: Email) {
    && k.stock.Some? && k.stock.value.Number? && k.stock.value.n >= 0
    && e in Boot.Members(k.orders)
  }

  lemma {:induction false} WarmBootKeepsState(k: Boot.Keys, truth: Boot.Truth, cut: nat)
    requires k.stock.Some?
    ensures StateOf(Boot.BootUntil(k, truth, cut)) == StateOf(k)
  {
    Boot.BootResult(k, truth);
    if cut < |Boot.BootWrites(k, truth)| {
      Boot.DyingMigration(k, truth, cut);
      assert Boot.BootUntil(k, truth, cut).stock == k.stock by {
        WarmBootKeepsStock(k, truth, cut);
      }
    }
  }

  lemma {:induction false} WarmBootKeepsStock(k: Boot.Keys, truth: Boot.Truth, cut: nat)
    requires k.stock.Some? && cut < |Boot.BootWrites(k, truth)|
    ensures Boot.BootUntil(k, truth, cut).stock == k.stock
  {
    Boot.MigrateResult(k);
    var ws := Boot.BootWrites(k, truth);
    assert ws == Boot.MigrateWrites(k);
    assert ws[..0] == [] && (cut == 1 ==> ws[..1] == [ws[0]]);
    Boot.ExecTwo(k, ws[0], ws[0]);
  }

  lemma {:induction false} HappenKeepsHolder(k: Boot.Keys, window: Window, h: Happening, e: Email)
    requires Holds(k, e)
    ensures Holds(Happen(k, window, h), e)
  {
    match h
    case Request(now, other, ran) => DecideConserves(StateOf(k), other);
    case Restart(truth, cut) =>
      WarmBootKeepsState(k, truth, cut);
      assert StateOf(k).stock.Some?;
  }

  lemma {:induction false} HolderForever(k: Boot.Keys, window: Window, hs: seq<Happening>, e: Email)
    requires Holds(k, e)
    ensures Holds(HappenAll(k, window, hs), e)
    decreases |hs|
  {
    if hs != [] {
      HappenKeepsHolder(k, window, hs[0], e);
      HolderForever(Happen(k, window, hs[0]), window, hs[1..], e);
    }
  }

  /** Once answered `created`, an email is answered `already` at every later
      request, at any clock value, whatever others did, whatever replies were
      lost, and across warm restarts, dead ones included. */
  lemma {:induction false} AcceptedIsAlreadyForever(
      k: Boot.Keys, window: Window, now: int, e: Email, hs: seq<Happening>, later: int)
    requires Serve(StateOf(k), window, now, e).outcome.Created?
    ensures var after := HappenAll(Happen(k, window, Request(now, e, true)), window, hs);
            && Serve(StateOf(after), window, later, e).outcome.Already?
            && Happen(after, window, Request(later, e, true)) == after
  {
    DecideConserves(StateOf(k), e);
    var accepted := Happen(k, window, Request(now, e, true));
    assert Holds(accepted, e);
    HolderForever(accepted, window, hs, e);
    HolderWinsIff(StateOf(HappenAll(accepted, window, hs)), window, later, e);
  }

  /** Across a cold rebuild the promise is kept exactly for the emails MongoDB
      confirms: an accepted order that has not reached it yet is forgotten. */
  lemma {:induction false} ColdRestartKeepsHolderIff(
      k: Boot.Keys, truth: Boot.Truth, window: Window, now: int, e: Email)
    requires k.stock.None? && k.flatStock.None?
    ensures Serve(StateOf(Boot.Booted(k, truth)), window, now, e).outcome.Already? <==> e in truth.emails
  {
    Boot.BootResult(k, truth);
  }

  /** Such a run: accepted, then rebuilt before the audit arrived, then accepted
      again. */
  lemma {:induction false} ColdRestartMayForget(window: Window, now: int, e: Email)
    requires window.Contains(now)
    ensures exists k, truth ::
              && Serve(StateOf(k), window, now, e).outcome.Already?
              && Serve(StateOf(Boot.Booted(k.(stock := None), truth)), window, now, e).outcome.Created?
  {
    var k := Boot.Keys(None, None, Some(Number(0)), Some({e}));
    var truth := Boot.Truth({}, 1);
    Boot.BootResult(k.(stock := None), truth);
    assert Serve(StateOf(Boot.Booted(k.(stock := None), truth)), window, now, e).outcome.Created?;
  }
}

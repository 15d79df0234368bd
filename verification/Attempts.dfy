/**
 Order attempts against Redis over an unreliable connection
 (server/src/adapters/redis/orders.ts with the post-accept publishes of
 server/src/services/order.ts): EVALSHA, the EVAL fallback on NOSCRIPT, and
 timeouts whose command may still run later. Any number of calls interleave.
 */
module Attempts {
  import opened Ids
  import opened OrderScript

  datatype Command = EvalSha | Eval

  datatype Answer = NoScript | Ran(reply: Reply)

  /** Where the call's current command is. */
  datatype Wire = InFlight(command: Command) | Answered(answer: Answer) | Gone

  /** `Done(None)` is the fail-closed 503. */
  datatype Client = Waiting | Done(result: Option<Reply>)

  /** `runs` counts script executions for this call. */
  datatype Call = Call(email: Email, wire: Wire, client: Client, fellBack: bool, runs: nat)

  datatype Event = OrderAccepted(call: nat) | SoldOut(call: nat)

  datatype Accepted = Accepted(call: nat, remaining: int)

  /** A script execution: for which call and email, on which keys, with what reply. */
  datatype Decided = Decided(call: nat, email: Email, before: SaleState, reply: Reply)

  /** A reply of the script, garbled or not, that found its call waiting. */
  datatype Delivered = Delivered(call: nat, reply: Reply)

  /** `cached`: the server knows the script. `sha`: the API has its digest.
      `oks`: the OK decisions in the order the server made them. `decided` and
      `delivered` are history. */
  datatype Sys = Sys(
    sale: SaleState,
    cached: bool,
    sha: bool,
    calls: seq<Call>,
    oks: seq<Accepted>,
    published: seq<Event>,
    decided: seq<Decided>,
    delivered: seq<Delivered>)

  datatype Step =
    | Begin(email: Email)
    | ServerRuns(call: nat)
    | ConnectionDrops(call: nat)
    | ReplyGarbled(call: nat)
    | ReplyArrives(call: nat)
    | TimesOut(call: nat)
    | FlushScripts
    | LoadScript

  /** Reply or nothing: an error reply, a garbled one and a negative count all fail
      closed. */
  function ParseDecision(reply: Reply): Option<Reply> {
    if reply.Reply? && reply.remaining >= 0 then Some(reply) else None
  }

  /** The script's own replies can be read exactly while the stock is a count. */
  lemma {:induction false} ReadableIff(s: SaleState, e: Email)
    ensures ParseDecision(Decide(s, e).reply).Some? <==> s.stock.Some? && s.stock.value >= 0
  {
  }

  ghost predicate Init(stock: nat, s: Sys) {
    && s.sale.stock == Some(stock) && s.calls == [] && s.oks == [] && s.published == []
    && s.decided == [] && s.delivered == []
  }

  predicate Enabled(s: Sys, step: Step) {
    match step
    case ServerRuns(i) => i < |s.calls| && s.calls[i].wire.InFlight?
    case ConnectionDrops(i) => i < |s.calls| && !s.calls[i].wire.Gone?
    case ReplyGarbled(i) => i < |s.calls| && s.calls[i].wire.Answered? && s.calls[i].wire.answer.Ran?
    case ReplyArrives(i) => i < |s.calls| && s.calls[i].wire.Answered? && s.calls[i].client.Waiting?
    case TimesOut(i) => i < |s.calls| && s.calls[i].client.Waiting?
    case _ => true
  }

  function Apply(s: Sys, step: Step): Sys
    requires Enabled(s, step)
  {
    match step
    case Begin(e) =>
      s.(calls := s.calls + [Call(e, InFlight(if s.sha then EvalSha else Eval), Waiting, false, 0)])
    case ServerRuns(i) => ServerRun(s, i).(decided := s.decided + DecisionFor(s, i))
    case ConnectionDrops(i) => s.(calls := s.calls[i := s.calls[i].(wire := Gone)])
    case ReplyGarbled(i) => s.(calls := s.calls[i := s.calls[i].(wire := Answered(Ran(Garbled)))])
    case ReplyArrives(i) => Receive(s, i).(delivered := s.delivered + DeliveryTo(s, i))
    case TimesOut(i) => s.(calls := s.calls[i := s.calls[i].(client := Done(None))])
    case FlushScripts => s.(cached := false)
    case LoadScript => s.(cached := true, sha := true)
  }

  /** The history of a command worked off and of an answer that arrives. */
  function DecisionFor(s: Sys, i: nat): seq<Decided>
    requires i < |s.calls| && s.calls[i].wire.InFlight?
  {
    var call := s.calls[i];
    if call.wire.command.EvalSha? && !s.cached then []
    else [Decided(i, call.email, s.sale, Decide(s.sale, call.email).reply)]
  }

  function DeliveryTo(s: Sys, i: nat): seq<Delivered>
    requires i < |s.calls| && s.calls[i].wire.Answered?
  {
    if s.calls[i].wire.answer.Ran? then [Delivered(i, s.calls[i].wire.answer.reply)] else []
  }

  /** The server works the command off, whether or not anyone still waits. EVAL
      leaves the script in its cache. */
  function ServerRun(s: Sys, i: nat): Sys
    requires i < |s.calls| && s.calls[i].wire.InFlight?
  {
    var call := s.calls[i];
    if call.wire.command.EvalSha? && !s.cached then
      s.(calls := s.calls[i := call.(wire := Answered(NoScript))])
    else
      var d := Decide(s.sale, call.email);
      s.(sale := d.state,
         cached := true,
         calls := s.calls[i := call.(wire := Answered(Ran(d.reply)), runs := call.runs + 1)],
         oks := if IsOk(d.reply) then s.oks + [Accepted(i, d.reply.remaining)] else s.oks)
  }

  /** NOSCRIPT is answered by one EVAL; a verdict ends the call and, on OK,
      publishes the consequence events. */
  function Receive(s: Sys, i: nat): Sys
    requires i < |s.calls| && s.calls[i].wire.Answered?
  {
    var call := s.calls[i];
    match call.wire.answer
    case NoScript => s.(calls := s.calls[i := call.(wire := InFlight(Eval), fellBack := true)])
    case Ran(reply) =>
      var result := ParseDecision(reply);
      s.(calls := s.calls[i := call.(wire := Gone, client := Done(result))],
         published := s.published + EventsFor(i, result))
  }

  function EventsFor(i: nat, result: Option<Reply>): seq<Event> {
    if result.Some? && IsOk(result.value)
    then [OrderAccepted(i)] + (if result.value.remaining == 0 then [SoldOut(i)] else [])
    else []
  }

  predicate IsOk(reply: Reply) {
    reply.Reply? && reply.verdict == OK
  }

  // ---- invariant ----

  /** Stock and the OK log tell the same story. */
  ghost predicate DecisionInv(stock: nat, buyers: set<Email>, s: Sys) {
    && s.sale.stock == Some(stock - |s.oks|) && |s.oks| <= stock
    && Capacity(s.sale) == stock + |buyers|
    && forall k {:trigger s.oks[k]} | 0 <= k < |s.oks| :: s.oks[k].remaining == stock - 1 - k
  }

  ghost predicate Logged(s: Sys, i: nat, reply: Reply) {
    IsOk(reply) ==> exists k :: 0 <= k < |s.oks| && s.oks[k] == Accepted(i, reply.remaining)
  }

  /** A call runs the script at most once and not before it is answered; an OK it
      was given is in the log; an OK it received was published. */
  ghost predicate CallInv(s: Sys, i: nat)
    requires i < |s.calls|
  {
    var call := s.calls[i];
    && call.runs <= 1
    && (call.wire.InFlight? ==> call.runs == 0)
    && (call.wire.Answered? && call.wire.answer.NoScript? ==> call.runs == 0)
    && (call.wire.Answered? && call.wire.answer.Ran? ==> Logged(s, i, call.wire.answer.reply))
    && (call.client.Done? && call.client.result.Some? ==> Received(s, i, call.client.result.value))
  }

  ghost predicate Received(s: Sys, i: nat, reply: Reply) {
    && Logged(s, i, reply)
    && (IsOk(reply) ==> OrderAccepted(i) in s.published)
    && (IsOk(reply) && reply.remaining == 0 ==> SoldOut(i) in s.published)
  }

  /** Nothing is published twice, nor by a call that did not receive the OK. */
  ghost predicate PublishedInv(s: Sys) {
    && (forall j, k {:trigger s.published[j], s.published[k]} | 0 <= j < k < |s.published| ::
         s.published[j] != s.published[k])
    && (forall ev | ev in s.published :: Justified(s, ev))
  }

  ghost predicate Justified(s: Sys, ev: Event) {
    && ev.call < |s.calls|
    && s.calls[ev.call].client.Done? && s.calls[ev.call].client.result.Some?
    && IsOk(s.calls[ev.call].client.result.value)
    && (ev.SoldOut? ==> s.calls[ev.call].client.result.value.remaining == 0)
  }

  ghost predicate Inv(stock: nat, buyers: set<Email>, s: Sys) {
    && DecisionInv(stock, buyers, s)
    && (forall i {:trigger CallInv(s, i)} | 0 <= i < |s.calls| :: CallInv(s, i))
    && PublishedInv(s)
  }

  /** The keys before the k-th decision, and now. */
  function KeysAt(s: Sys, k: nat): SaleState
    requires k <= |s.decided|
  {
    if k < |s.decided| then s.decided[k].before else s.sale
  }

  /** The decisions follow one another: each was made on what the one before left,
      the first on the keys at the start, and the last left the keys there are. */
  ghost predicate ChainInv(stock: nat, buyers: set<Email>, s: Sys) {
    && KeysAt(s, 0) == SaleState(Some(stock), buyers)
    && (forall k {:trigger s.decided[k]} | 0 <= k < |s.decided| ::
          && s.decided[k].call < |s.calls| && s.calls[s.decided[k].call].email == s.decided[k].email
          && Decide(s.decided[k].before, s.decided[k].email) == Decision(KeysAt(s, k + 1), s.decided[k].reply))
    && (forall j, k {:trigger s.decided[j], s.decided[k]} | 0 <= j < k < |s.decided| ::
          s.decided[j].call != s.decided[k].call)
  }

  ghost predicate WasDecided(s: Sys, i: nat, reply: Reply) {
    exists k :: 0 <= k < |s.decided| && s.decided[k].call == i && s.decided[k].reply == reply
  }

  /** What is on the wire or was received is this call's own decision. */
  ghost predicate HistoryInv(s: Sys, i: nat)
    requires i < |s.calls|
  {
    var call := s.calls[i];
    && (call.runs == 0 ==> forall k | 0 <= k < |s.decided| :: s.decided[k].call != i)
    && (call.wire.Answered? && call.wire.answer.Ran? && call.wire.answer.reply != Garbled ==>
          WasDecided(s, i, call.wire.answer.reply))
    && (call.client.Done? && call.client.result.Some? ==> Delivered(i, call.client.result.value) in s.delivered)
  }

  /** A reply that arrived was decided, unless it was garbled, and became the call's
      result. */
  ghost predicate DeliveryInv(s: Sys) {
    forall d | d in s.delivered ::
      && d.call < |s.calls| && s.calls[d.call].client == Done(ParseDecision(d.reply))
      && (d.reply != Garbled ==> WasDecided(s, d.call, d.reply))
  }

  lemma {:induction false} CallStays(s: Sys, t: Sys, i: nat)
    requires i < |s.calls| && i < |t.calls| && s.calls[i] == t.calls[i] && CallInv(s, i)
    requires s.oks <= t.oks && s.published <= t.published
    ensures CallInv(t, i)
  {
    forall reply | Logged(s, i, reply) ensures Logged(t, i, reply) {
      if IsOk(reply) {
        var k :| 0 <= k < |s.oks| && s.oks[k] == Accepted(i, reply.remaining);
        assert t.oks[k] == s.oks[k];
      }
    }
    assert forall ev | ev in s.published :: ev in t.published;
  }

  lemma {:induction false} JustifiedStays(s: Sys, t: Sys, ev: Event)
    requires Justified(s, ev) && |s.calls| <= |t.calls| && t.calls[ev.call].client == s.calls[ev.call].client
    ensures Justified(t, ev)
  {
  }

  lemma {:induction false} RunKeeps(stock: nat, buyers: set<Email>, s: Sys, i: nat)
    requires Inv(stock, buyers, s) && Enabled(s, ServerRuns(i))
    ensures Inv(stock, buyers, Apply(s, ServerRuns(i)))
  {
    var t := Apply(s, ServerRuns(i));
    DecideConserves(s.sale, s.calls[i].email);
    assert CallInv(s, i);
    assert CallInv(t, i) by {
      if t.oks != s.oks {
        assert t.oks[|s.oks|] == Accepted(i, t.calls[i].wire.answer.reply.remaining);
      }
      KeptClientFacts(s, t, i);
    }
    forall j | 0 <= j < |t.calls| ensures CallInv(t, j) {
      if j != i {
        assert CallInv(s, j);
        CallStays(s, t, j);
      }
    }
    forall ev | ev in t.published ensures Justified(t, ev) {
      JustifiedStays(s, t, ev);
    }
  }

  lemma {:induction false} KeptClientFacts(s: Sys, t: Sys, i: nat)
    requires i < |s.calls| && CallInv(s, i) && s.oks <= t.oks && s.published == t.published
    ensures s.calls[i].client.Done? && s.calls[i].client.result.Some? ==> Received(t, i, s.calls[i].client.result.value)
  {
    if s.calls[i].client.Done? && s.calls[i].client.result.Some? && IsOk(s.calls[i].client.result.value) {
      var k :| 0 <= k < |s.oks| && s.oks[k] == Accepted(i, s.calls[i].client.result.value.remaining);
      assert t.oks[k] == s.oks[k];
    }
  }

  /** Steps that touch at most one call's wire or client without an outcome. */
  lemma {:induction false} QuietStepKeeps(stock: nat, buyers: set<Email>, s: Sys, step: Step)
    requires Inv(stock, buyers, s) && Enabled(s, step)
    requires || step.ConnectionDrops? || step.ReplyGarbled? || step.TimesOut?
             || step.FlushScripts? || step.LoadScript? || step.Begin?
    ensures Inv(stock, buyers, Apply(s, step))
  {
    var t := Apply(s, step);
    forall j | 0 <= j < |t.calls| ensures CallInv(t, j) {
      if j < |s.calls| {
        assert CallInv(s, j);
        if s.calls[j] == t.calls[j] {
          CallStays(s, t, j);
        } else {
          KeptClientFacts(s, t, j);
        }
      }
    }
    forall ev | ev in t.published ensures Justified(t, ev) {
      JustifiedStays(s, t, ev);
    }
  }

  lemma {:induction false} ReplyKeepsCalls(stock: nat, buyers: set<Email>, s: Sys, i: nat)
    requires Inv(stock, buyers, s) && Enabled(s, ReplyArrives(i))
    ensures var t := Apply(s, ReplyArrives(i)); forall j {:trigger CallInv(t, j)} | 0 <= j < |t.calls| :: CallInv(t, j)
  {
    var t := Apply(s, ReplyArrives(i));
    assert CallInv(s, i);
    assert CallInv(t, i) by {
      if t.calls[i].client.Done? && t.calls[i].client.result.Some? {
        var reply := t.calls[i].client.result.value;
        assert Logged(t, i, reply) by {
          assert Logged(s, i, reply);
        }
        if IsOk(reply) {
          assert t.published[|s.published|] == OrderAccepted(i);
          assert reply.remaining == 0 ==> t.published[|s.published| + 1] == SoldOut(i);
        }
      }
    }
    forall j | 0 <= j < |t.calls| ensures CallInv(t, j) {
      if j != i {
        assert CallInv(s, j);
        CallStays(s, t, j);
      }
    }
  }

  lemma {:induction false} ReplyKeepsPublished(stock: nat, buyers: set<Email>, s: Sys, i: nat)
    requires Inv(stock, buyers, s) && Enabled(s, ReplyArrives(i))
    ensures PublishedInv(Apply(s, ReplyArrives(i)))
  {
    var t := Apply(s, ReplyArrives(i));
    forall ev | ev in s.published ensures Justified(t, ev) && ev.call != i {
      assert Justified(s, ev);
    }
    forall ev | ev in t.published ensures Justified(t, ev) {
      assert ev in s.published || ev.call == i;
    }
    forall j, k | 0 <= j < k < |t.published| ensures t.published[j] != t.published[k] {
      if j < |s.published| {
        assert t.published[j] in s.published;
      }
    }
  }

  lemma {:induction false} StepInv(stock: nat, buyers: set<Email>, s: Sys, step: Step)
    requires Inv(stock, buyers, s) && Enabled(s, step)
    ensures Inv(stock, buyers, Apply(s, step))
  {
    match step
    case ServerRuns(i) => RunKeeps(stock, buyers, s, i);
    case ReplyArrives(i) =>
      ReplyKeepsCalls(stock, buyers, s, i);
      ReplyKeepsPublished(stock, buyers, s, i);
    case _ => QuietStepKeeps(stock, buyers, s, step);
  }

  // ---- runs ----

  ghost predicate ValidRun(s: Sys, steps: seq<Step>)
    decreases |steps|
  {
    steps != [] ==> Enabled(s, steps[0]) && ValidRun(Apply(s, steps[0]), steps[1..])
  }

  ghost function After(s: Sys, steps: seq<Step>): Sys
    requires ValidRun(s, steps)
    decreases |steps|
  {
    if steps == [] then s else After(Apply(s, steps[0]), steps[1..])
  }

  lemma {:induction false} RunInv(stock: nat, buyers: set<Email>, s: Sys, steps: seq<Step>)
    requires Inv(stock, buyers, s) && ValidRun(s, steps)
    ensures Inv(stock, buyers, After(s, steps))
    decreases |steps|
  {
    if steps != [] {
      StepInv(stock, buyers, s, steps[0]);
      RunInv(stock, buyers, Apply(s, steps[0]), steps[1..]);
    }
  }

  /** Some run from `stock` units and `buyers` leads to `s`. */
  ghost predicate Reachable(stock: nat, buyers: set<Email>, s: Sys) {
    exists s0, steps :: Init(stock, s0) && s0.sale.buyers == buyers && ValidRun(s0, steps) && After(s0, steps) == s
  }

  lemma {:induction false} ReachableInv(stock: nat, buyers: set<Email>, s: Sys)
    requires Reachable(stock, buyers, s)
    ensures Inv(stock, buyers, s)
  {
    var s0, steps :| Init(stock, s0) && s0.sale.buyers == buyers && ValidRun(s0, steps) && After(s0, steps) == s;
    RunInv(stock, buyers, s0, steps);
  }

  // ---- the history of a run ----

  ghost predicate Past(stock: nat, buyers: set<Email>, s: Sys) {
    && ChainInv(stock, buyers, s)
    && (forall i {:trigger HistoryInv(s, i)} | 0 <= i < |s.calls| :: HistoryInv(s, i))
    && DeliveryInv(s)
  }

  lemma {:induction false} DecidedStays(s: Sys, t: Sys, i: nat, reply: Reply)
    requires s.decided <= t.decided && WasDecided(s, i, reply)
    ensures WasDecided(t, i, reply)
  {
    var k :| 0 <= k < |s.decided| && s.decided[k].call == i && s.decided[k].reply == reply;
    assert t.decided[k] == s.decided[k];
  }

  /** A call of which nothing was decided, delivered or changed. */
  lemma {:induction false} HistoryStays(s: Sys, t: Sys, i: nat)
    requires i < |s.calls| && i < |t.calls| && s.calls[i] == t.calls[i] && HistoryInv(s, i)
    requires s.decided <= t.decided && s.delivered <= t.delivered
    requires forall k | |s.decided| <= k < |t.decided| :: t.decided[k].call != i
    ensures HistoryInv(t, i)
  {
    var call := s.calls[i];
    if call.wire.Answered? && call.wire.answer.Ran? && call.wire.answer.reply != Garbled {
      DecidedStays(s, t, i, call.wire.answer.reply);
    }
    forall k | 0 <= k < |t.decided| && call.runs == 0 ensures t.decided[k].call != i {
      assert k < |s.decided| ==> t.decided[k] == s.decided[k];
    }
    assert forall d | d in s.delivered :: d in t.delivered;
  }

  lemma {:induction false} DeliveriesStay(s: Sys, t: Sys)
    requires DeliveryInv(s) && s.decided <= t.decided && t.delivered == s.delivered && |s.calls| <= |t.calls|
    requires forall i | 0 <= i < |s.calls| && s.calls[i].client.Done? :: t.calls[i].client == s.calls[i].client
    ensures DeliveryInv(t)
  {
    forall d | d in t.delivered
      ensures d.call < |t.calls| && t.calls[d.call].client == Done(ParseDecision(d.reply))
      ensures d.reply != Garbled ==> WasDecided(t, d.call, d.reply)
    {
      if d.reply != Garbled {
        DecidedStays(s, t, d.call, d.reply);
      }
    }
  }

  lemma {:induction false} ChainStays(stock: nat, buyers: set<Email>, s: Sys, t: Sys)
    requires ChainInv(stock, buyers, s) && t.decided == s.decided && t.sale == s.sale && |s.calls| <= |t.calls|
    requires forall i | 0 <= i < |s.calls| :: t.calls[i].email == s.calls[i].email
    ensures ChainInv(stock, buyers, t)
  {
    forall k | 0 <= k < |t.decided|
      ensures t.decided[k].call < |t.calls| && t.calls[t.decided[k].call].email == t.decided[k].email
      ensures Decide(t.decided[k].before, t.decided[k].email) == Decision(KeysAt(t, k + 1), t.decided[k].reply)
    {
      assert s.decided[k] == t.decided[k] && KeysAt(s, k + 1) == KeysAt(t, k + 1);
    }
  }

  lemma {:induction false} RunKeepsChain(stock: nat, buyers: set<Email>, s: Sys, i: nat)
    requires ChainInv(stock, buyers, s) && Enabled(s, ServerRuns(i)) && CallInv(s, i) && HistoryInv(s, i)
    ensures ChainInv(stock, buyers, Apply(s, ServerRuns(i)))
  {
    var t := Apply(s, ServerRuns(i));
    if t.decided == s.decided {
      ChainStays(stock, buyers, s, t);
    } else {
      forall k | 0 <= k < |t.decided|
        ensures t.decided[k].call < |t.calls| && t.calls[t.decided[k].call].email == t.decided[k].email
        ensures Decide(t.decided[k].before, t.decided[k].email) == Decision(KeysAt(t, k + 1), t.decided[k].reply)
      {
        if k < |s.decided| {
          assert t.decided[k] == s.decided[k] && KeysAt(s, k + 1) == KeysAt(t, k + 1);
        }
      }
    }
  }

  lemma {:induction false} RunKeepsPast(stock: nat, buyers: set<Email>, s: Sys, i: nat)
    requires Inv(stock, buyers, s) && Past(stock, buyers, s) && Enabled(s, ServerRuns(i))
    ensures Past(stock, buyers, Apply(s, ServerRuns(i)))
  {
    var t := Apply(s, ServerRuns(i));
    assert CallInv(s, i) && HistoryInv(s, i);
    RunKeepsChain(stock, buyers, s, i);
    DeliveriesStay(s, t);
    forall j | 0 <= j < |t.calls| ensures HistoryInv(t, j) {
      assert HistoryInv(s, j);
      if j != i {
        HistoryStays(s, t, j);
      } else if t.decided != s.decided {
        assert t.decided[|s.decided|] == Decided(i, s.calls[i].email, s.sale, t.calls[i].wire.answer.reply);
      }
    }
  }

  lemma {:induction false} ReplyKeepsPast(stock: nat, buyers: set<Email>, s: Sys, i: nat)
    requires Past(stock, buyers, s) && Enabled(s, ReplyArrives(i))
    ensures Past(stock, buyers, Apply(s, ReplyArrives(i)))
  {
    var t := Apply(s, ReplyArrives(i));
    ChainStays(stock, buyers, s, t);
    assert HistoryInv(s, i);
    forall j | 0 <= j < |t.calls| ensures HistoryInv(t, j) {
      assert HistoryInv(s, j);
      if j != i {
        HistoryStays(s, t, j);
      } else if t.delivered != s.delivered {
        assert t.delivered[|s.delivered|] == Delivered(i, s.calls[i].wire.answer.reply);
      }
    }
    forall d | d in t.delivered
      ensures d.call < |t.calls| && t.calls[d.call].client == Done(ParseDecision(d.reply))
      ensures d.reply != Garbled ==> WasDecided(t, d.call, d.reply)
    {
      assert d in s.delivered || t.delivered == s.delivered + [d];
      if d.reply != Garbled {
        DecidedStays(s, t, d.call, d.reply);
      }
    }
  }

  lemma {:induction false} QuietStepKeepsPast(stock: nat, buyers: set<Email>, s: Sys, step: Step)
    requires Past(stock, buyers, s) && Enabled(s, step)
    requires || step.ConnectionDrops? || step.ReplyGarbled? || step.TimesOut?
             || step.FlushScripts? || step.LoadScript? || step.Begin?
    ensures Past(stock, buyers, Apply(s, step))
  {
    var t := Apply(s, step);
    ChainStays(stock, buyers, s, t);
    DeliveriesStay(s, t);
    forall j | 0 <= j < |t.calls| ensures HistoryInv(t, j) {
      if j < |s.calls| {
        assert HistoryInv(s, j);
        if s.calls[j] == t.calls[j] {
          HistoryStays(s, t, j);
        }
      }
    }
  }

  lemma {:induction false} StepPast(stock: nat, buyers: set<Email>, s: Sys, step: Step)
    requires Inv(stock, buyers, s) && Past(stock, buyers, s) && Enabled(s, step)
    ensures Past(stock, buyers, Apply(s, step))
  {
    match step
    case ServerRuns(i) => RunKeepsPast(stock, buyers, s, i);
    case ReplyArrives(i) => ReplyKeepsPast(stock, buyers, s, i);
    case _ => QuietStepKeepsPast(stock, buyers, s, step);
  }

  lemma {:induction false} RunPast(stock: nat, buyers: set<Email>, s: Sys, steps: seq<Step>)
    requires Inv(stock, buyers, s) && Past(stock, buyers, s) && ValidRun(s, steps)
    ensures Past(stock, buyers, After(s, steps))
    decreases |steps|
  {
    if steps != [] {
      StepInv(stock, buyers, s, steps[0]);
      StepPast(stock, buyers, s, steps[0]);
      RunPast(stock, buyers, Apply(s, steps[0]), steps[1..]);
    }
  }

  lemma {:induction false} ReachablePast(stock: nat, buyers: set<Email>, s: Sys)
    requires Reachable(stock, buyers, s)
    ensures Past(stock, buyers, s)
  {
    var s0, steps :| Init(stock, s0) && s0.sale.buyers == buyers && ValidRun(s0, steps) && After(s0, steps) == s;
    RunPast(stock, buyers, s0, steps);
  }

  // ---- what every interleaving guarantees ----

  /** However calls interleave, drop and time out, the keys went through one decision
      after another, each for the email of its own call and no two for one call; and
      a verdict an API process holds is the one made for its call. */
  lemma {:induction false} CallsAreLinearizable(stock: nat, buyers: set<Email>, s: Sys)
    requires Reachable(stock, buyers, s)
    ensures KeysAt(s, 0) == SaleState(Some(stock), buyers) && KeysAt(s, |s.decided|) == s.sale
    ensures forall k {:trigger s.decided[k]} | 0 <= k < |s.decided| ::
              && s.decided[k].call < |s.calls| && s.decided[k].email == s.calls[s.decided[k].call].email
              && KeysAt(s, k) == s.decided[k].before
              && Decide(KeysAt(s, k), s.decided[k].email) == Decision(KeysAt(s, k + 1), s.decided[k].reply)
    ensures forall j, k {:trigger s.decided[j], s.decided[k]} | 0 <= j < k < |s.decided| ::
              s.decided[j].call != s.decided[k].call
    ensures forall i {:trigger s.calls[i]} | 0 <= i < |s.calls| ::
              s.calls[i].client.Done? && s.calls[i].client.result.Some? ==>
                WasDecided(s, i, s.calls[i].client.result.value)
  {
    ReachablePast(stock, buyers, s);
    forall i | 0 <= i < |s.calls| && s.calls[i].client.Done? && s.calls[i].client.result.Some?
      ensures WasDecided(s, i, s.calls[i].client.result.value)
    {
      assert HistoryInv(s, i) && Delivered(i, s.calls[i].client.result.value) in s.delivered;
    }
  }

  /** An ungarbled reply that finds its call waiting is the decision made for that
      call and becomes its result, and exactly what follows from it is published: an
      OK, and with the last unit the end of the sale. */
  lemma {:induction false} ArrivedDecisionIsTheResult(stock: nat, buyers: set<Email>, s: Sys, i: nat)
    requires Reachable(stock, buyers, s) && Enabled(s, ReplyArrives(i))
    requires s.calls[i].wire.answer.Ran? && s.calls[i].wire.answer.reply != Garbled
    ensures var reply, t := s.calls[i].wire.answer.reply, Apply(s, ReplyArrives(i));
            && reply.Reply? && reply.remaining >= 0 && WasDecided(s, i, reply)
            && t.calls[i].client == Done(Some(reply)) && t.sale == s.sale
            && (forall ev :: ev in t.published <==>
                  || ev in s.published
                  || (ev == OrderAccepted(i) && reply.verdict == OK)
                  || (ev == SoldOut(i) && reply.verdict == OK && reply.remaining == 0))
  {
    ReachablePast(stock, buyers, s);
    assert HistoryInv(s, i);
    var reply := s.calls[i].wire.answer.reply;
    var k :| 0 <= k < |s.decided| && s.decided[k].call == i && s.decided[k].reply == reply;
    DecisionsCount(stock, buyers, s, k);
    var t := Apply(s, ReplyArrives(i));
    assert t.published == s.published + EventsFor(i, Some(reply));
    assert reply.verdict == OK ==> t.published[|s.published|] == OrderAccepted(i);
    assert reply.verdict == OK && reply.remaining == 0 ==> t.published[|s.published| + 1] == SoldOut(i);
  }

  /** Every decision found a count and left one. */
  lemma {:induction false} DecisionsCount(stock: nat, buyers: set<Email>, s: Sys, k: nat)
    requires ChainInv(stock, buyers, s) && k < |s.decided|
    ensures s.decided[k].before.stock.Some? && s.decided[k].before.stock.value >= 0
    ensures s.decided[k].reply.Reply? && s.decided[k].reply.remaining >= 0
  {
    if k > 0 {
      DecisionsCount(stock, buyers, s, k - 1);
      assert Decide(s.decided[k - 1].before, s.decided[k - 1].email)
             == Decision(KeysAt(s, k), s.decided[k - 1].reply);
      DecideConserves(s.decided[k - 1].before, s.decided[k - 1].email);
    }
    assert Decide(s.decided[k].before, s.decided[k].email) == Decision(KeysAt(s, k + 1), s.decided[k].reply);
  }

  /** Conservation, no oversell, and the k-th OK leaves exactly k units fewer. */
  lemma {:induction false} DecisionsConserve(stock: nat, buyers: set<Email>, s: Sys)
    requires Reachable(stock, buyers, s)
    ensures s.sale.stock.Some? && s.sale.stock.value >= 0
    ensures |s.sale.buyers| + s.sale.stock.value == |buyers| + stock
    ensures |s.oks| == |s.sale.buyers| - |buyers| <= stock
    ensures forall k {:trigger s.oks[k]} | 0 <= k < |s.oks| :: s.oks[k].remaining == stock - (k + 1)
  {
    ReachableInv(stock, buyers, s);
  }

  /** The steps of one call that nothing gets in the way of: with a digest the server
      has forgotten, EVALSHA is refused and EVAL is sent once. */
  function Undisturbed(s: Sys, e: Email): seq<Step> {
    var i := |s.calls|;
    [Begin(e)] + (if s.sha && !s.cached then [ServerRuns(i), ReplyArrives(i)] else [])
    + [ServerRuns(i), ReplyArrives(i)]
  }

  /** Such a call is answered by the decision on the keys as they are, flushed script
      cache or not, and the server then knows the script. */
  lemma {:induction false} UndisturbedCallIsAnswered(s: Sys, e: Email)
    ensures ValidRun(s, Undisturbed(s, e))
    ensures var t, d := After(s, Undisturbed(s, e)), Decide(s.sale, e);
            && t.sale == d.state && t.cached && |t.calls| == |s.calls| + 1
            && t.calls[|s.calls|].email == e && t.calls[|s.calls|].client == Done(ParseDecision(d.reply))
            && t.calls[|s.calls|].fellBack == (s.sha && !s.cached)
            && t.decided == s.decided + [Decided(|s.calls|, e, s.sale, d.reply)]
            && t.delivered == s.delivered + [Delivered(|s.calls|, d.reply)]
  {
    var i, s1 := |s.calls|, Apply(s, Begin(e));
    if s.sha && !s.cached {
      var s2 := Apply(s1, ServerRuns(i));
      var s3 := Apply(s2, ReplyArrives(i));
      RunAndReply(s3, i);
      OneStep(s2, ReplyArrives(i), [ServerRuns(i), ReplyArrives(i)]);
      OneStep(s1, ServerRuns(i), [ReplyArrives(i)] + [ServerRuns(i), ReplyArrives(i)]);
      OneStep(s, Begin(e), [ServerRuns(i)] + ([ReplyArrives(i)] + [ServerRuns(i), ReplyArrives(i)]));
      assert Undisturbed(s, e)
             == [Begin(e)] + ([ServerRuns(i)] + ([ReplyArrives(i)] + [ServerRuns(i), ReplyArrives(i)]));
    } else {
      RunAndReply(s1, i);
      OneStep(s, Begin(e), [ServerRuns(i), ReplyArrives(i)]);
      assert Undisturbed(s, e) == [Begin(e)] + [ServerRuns(i), ReplyArrives(i)];
    }
  }

  lemma {:induction false} OneStep(s: Sys, step: Step, rest: seq<Step>)
    requires Enabled(s, step) && ValidRun(Apply(s, step), rest)
    ensures ValidRun(s, [step] + rest) && After(s, [step] + rest) == After(Apply(s, step), rest)
  {
    assert ([step] + rest)[1..] == rest;
  }

  lemma {:induction false} RunAndReply(s: Sys, i: nat)
    requires i < |s.calls| && s.calls[i].wire.InFlight? && s.calls[i].client.Waiting?
    requires s.calls[i].wire.command.EvalSha? ==> s.cached
    ensures ValidRun(s, [ServerRuns(i), ReplyArrives(i)])
    ensures After(s, [ServerRuns(i), ReplyArrives(i)]) == Apply(Apply(s, ServerRuns(i)), ReplyArrives(i))
  {
    var t := Apply(s, ServerRuns(i));
    var u := Apply(t, ReplyArrives(i));
    assert ValidRun(u, []) && After(u, []) == u;
    OneStep(t, ReplyArrives(i), []);
    OneStep(s, ServerRuns(i), [ReplyArrives(i)]);
    assert [ReplyArrives(i)] + [] == [ReplyArrives(i)];
    assert [ServerRuns(i)] + [ReplyArrives(i)] == [ServerRuns(i), ReplyArrives(i)];
  }

  /** What each fault costs. A dropped connection loses the command or its answer for
      good; a garbled answer and a timeout are a 503 that publishes nothing; a flushed
      cache refuses the next digest, and a loaded one accepts it again. None of them
      touches the keys. */
  lemma {:induction false} FaultsCost(s: Sys, step: Step)
    requires Enabled(s, step) && !step.Begin? && !step.ServerRuns? && !step.ReplyArrives?
    ensures var t := Apply(s, step);
            && t.sale == s.sale && t.published == s.published && t.decided == s.decided && |t.calls| == |s.calls|
            && (step.ConnectionDrops? ==>
                  && !Enabled(t, ServerRuns(step.call)) && !Enabled(t, ReplyArrives(step.call))
                  && t.calls[step.call].client == s.calls[step.call].client)
            && (step.ReplyGarbled? && s.calls[step.call].client.Waiting? ==>
                  && Enabled(t, ReplyArrives(step.call))
                  && Apply(t, ReplyArrives(step.call)).calls[step.call].client == Done(None)
                  && Apply(t, ReplyArrives(step.call)).published == s.published)
            && (step.TimesOut? ==>
                  && t.calls[step.call].client == Done(None) && t.calls[step.call].wire == s.calls[step.call].wire)
            && (step.FlushScripts? ==> !t.cached && t.sha == s.sha && t.calls == s.calls)
            && (step.LoadScript? ==> t.cached && t.sha && t.calls == s.calls)
  {
  }

  /** A digest the server does not know is refused, and the keys are left alone. */
  lemma {:induction false} UnknownDigestIsRefused(s: Sys, i: nat)
    requires Enabled(s, ServerRuns(i)) && s.calls[i].wire.command.EvalSha? && !s.cached
    ensures var t := Apply(s, ServerRuns(i));
            t.sale == s.sale && t.calls[i].wire == Answered(NoScript) && t.decided == s.decided && t.oks == s.oks
  {
  }

  /** No call is refused its digest. */
  ghost predicate NeverRefused(s: Sys) {
    && (s.sha ==> s.cached)
    && forall i {:trigger s.calls[i]} | 0 <= i < |s.calls| ::
         && !s.calls[i].fellBack
         && (s.calls[i].wire.InFlight? && s.calls[i].wire.command.EvalSha? ==> s.cached)
         && (s.calls[i].wire.Answered? ==> s.calls[i].wire.answer.Ran?)
  }

  /** The fallback is for a flushed script cache only: a call without a digest sends
      the script itself, and one with a digest finds it while nobody flushes. */
  lemma {:induction false} FallbackOnlyAfterFlush(s: Sys, steps: seq<Step>)
    requires NeverRefused(s) && ValidRun(s, steps) && FlushScripts !in steps
    ensures NeverRefused(After(s, steps))
    decreases |steps|
  {
    if steps != [] {
      FallbackOnlyAfterFlush(Apply(s, steps[0]), steps[1..]);
    }
  }

  /** A timeout never leads to a second run, and the fallback is not one. */
  lemma {:induction false} EachCallRunsAtMostOnce(stock: nat, buyers: set<Email>, s: Sys, i: nat)
    requires Reachable(stock, buyers, s) && i < |s.calls|
    ensures s.calls[i].runs <= 1
    ensures s.calls[i].client.Done? && s.calls[i].client.result.Some? && IsOk(s.calls[i].client.result.value)
            ==> Accepted(i, s.calls[i].client.result.value.remaining) in s.oks
  {
    ReachableInv(stock, buyers, s);
    assert CallInv(s, i);
  }

  /** The call whose decision took the last unit. */
  predicate Draining(s: Sys, i: nat) {
    Accepted(i, 0) in s.oks
  }

  /** At most one SoldOut ever; it is there exactly when the draining call's reply
      came through ungarbled while the call was waiting. */
  lemma {:induction false} SoldOutIffDrainingReplyArrived(stock: nat, buyers: set<Email>, s: Sys, i: nat)
    requires Reachable(stock, buyers, s) && i < |s.calls| && Draining(s, i)
    ensures SoldOut(i) in s.published <==> Delivered(i, Reply(OK, 0)) in s.delivered
    ensures forall j, k {:trigger s.published[j], s.published[k]} ::
              0 <= j < |s.published| && 0 <= k < |s.published| && s.published[j].SoldOut? && s.published[k].SoldOut?
              ==> j == k
  {
    ReachableInv(stock, buyers, s);
    ReachablePast(stock, buyers, s);
    assert CallInv(s, i) && HistoryInv(s, i);
    forall j | 0 <= j < |s.published| && s.published[j].SoldOut? ensures s.published[j] == SoldOut(i) {
      SoldOutIsDraining(stock, buyers, s, s.published[j].call);
      OneDrainingCall(stock, buyers, s, i, s.published[j].call);
    }
    assert SoldOut(i) in s.published ==> Justified(s, SoldOut(i));
  }

  lemma {:induction false} SoldOutIsDraining(stock: nat, buyers: set<Email>, s: Sys, i: nat)
    requires Inv(stock, buyers, s) && SoldOut(i) in s.published
    ensures Draining(s, i)
  {
    assert Justified(s, SoldOut(i)) && CallInv(s, i);
  }

  lemma {:induction false} OneDrainingCall(stock: nat, buyers: set<Email>, s: Sys, i: nat, j: nat)
    requires DecisionInv(stock, buyers, s) && Draining(s, i) && Draining(s, j)
    ensures i == j
  {
    var a :| 0 <= a < |s.oks| && s.oks[a] == Accepted(i, 0);
    var b :| 0 <= b < |s.oks| && s.oks[b] == Accepted(j, 0);
  }

  /** Before the last unit goes, nothing says sold out. */
  lemma {:induction false} NoSoldOutBeforeDrained(stock: nat, buyers: set<Email>, s: Sys, i: nat)
    requires Reachable(stock, buyers, s) && SoldOut(i) in s.published
    ensures s.sale.stock == Some(0) && Draining(s, i)
  {
    ReachableInv(stock, buyers, s);
    SoldOutIsDraining(stock, buyers, s, i);
    var a :| 0 <= a < |s.oks| && s.oks[a] == Accepted(i, 0);
  }

  /** The lost signal: the draining command runs after its call was answered 503.
      Stock is gone, nothing was published, and nothing ever will be for it. */
  lemma {:induction false} TimedOutDrainPublishesNothing(e: Email)
    ensures exists s :: Reachable(1, {}, s) && s.sale == SaleState(Some(0), {e}) && s.published == []
                        && |s.calls| == 1 && s.calls[0].client == Done(None)
  {
    var s0 := Sys(SaleState(Some(1), {}), true, true, [], [], [], [], []);
    var steps := [Begin(e), TimesOut(0), ServerRuns(0)];
    var s1 := Apply(s0, Begin(e));
    var s2 := Apply(s1, TimesOut(0));
    var s3 := Apply(s2, ServerRuns(0));
    assert steps[1..] == [TimesOut(0), ServerRuns(0)] && steps[1..][1..] == [ServerRuns(0)];
    assert [ServerRuns(0)][1..] == [];
    assert ValidRun(s3, []) && ValidRun(s2, [ServerRuns(0)]) && ValidRun(s1, steps[1..]) && ValidRun(s0, steps);
    assert After(s3, []) == s3 && After(s2, [ServerRuns(0)]) == s3 && After(s1, steps[1..]) == s3;
    assert After(s0, steps) == s3 && Init(1, s0);
  }
}

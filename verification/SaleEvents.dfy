/**
 The SSE broadcaster (`createSaleEventsBroadcaster` in
 server/src/services/sale-events.ts) as an event loop: every handler is one
 turn. Timers live in the loop and fire no earlier than they are due. An emit
 takes three turns: one looks up the active sale, one starts the Redis read and
 one settles it.
 */
module SaleEvents {
  import opened Ids
  import opened SaleStatus

  /** The default of the source; its tests may set another interval. */
  const HEARTBEAT_MS := 25_000

  datatype Event = OrderAccepted | SaleStarted | SaleSoldOut | SaleEnded {
    predicate IsTerminal() {
      SaleSoldOut? || SaleEnded?
    }
  }

  /** Which call site asked for a broadcast. */
  datatype Kind = Leading | Trailing | AtTerminal | SafetyNet {
    predicate IsOrdinary() {
      Leading? || Trailing?
    }
  }

  datatype Broadcast = Broadcast(at: int, turn: nat, kind: Kind)

  datatype Heard = Heard(event: Event, at: int, turn: nat)

  /** A status frame and the turn in which its Redis read began. */
  datatype Frame = Frame(body: Body, readFrom: nat)

  datatype Chunk = StatusChunk(frame: Frame) | HeartbeatChunk

  /** A connection that ever registered, in turn `since` when `skipped` frames and
      `missed` chunks had gone out. `registered` is the unregister closure's own
      flag. */
  datatype Conn = Conn(since: nat, skipped: nat, missed: nat, registered: bool, out: seq<Chunk>, ended: bool)

  datatype Timer = OneShot(due: int) | Interval(due: int)

  datatype Loop = Loop(now: int, turn: nat, timers: map<nat, Timer>, nextTimer: nat)

  /** `queued` emits wait behind the one that is looking up the active sale or
      whose Redis read began in turn `reading`. */
  datatype Chain = Chain(queued: nat, looking: bool, reading: Option<nat>)

  const IDLE := Chain(0, false, None)

  /** What was written to the connections, and the history it came from: the status
      frames alone, and all chunks. */
  datatype Trace = Trace(
    conns: seq<Conn>,
    emits: seq<Broadcast>,
    heard: seq<Heard>,
    frames: seq<Frame>,
    log: seq<Chunk>,
    closed: Option<nat>)

  /** `probes` safety-net reads are in flight. */
  datatype Sys = Sys(
    loop: Loop,
    sinks: set<nat>,
    heartbeat: Option<nat>,
    pending: Option<nat>,
    lastEmitAt: Option<int>,
    sawTerminal: bool,
    chain: Chain,
    probes: nat,
    trace: Trace)

  // ---- the handlers on values ----

  /** What can happen to a connection. */
  datatype Touch = Write(chunk: Chunk) | End {
    function On(conn: Conn): Conn {
      if Write? then conn.(out := conn.out + [chunk]) else conn.(ended := true)
    }
  }

  function Touched(conns: seq<Conn>, who: set<nat>, touch: Touch): (r: seq<Conn>)
    ensures |r| == |conns|
  {
    if conns == [] then []
    else
      var last := |conns| - 1;
      Touched(conns[..last], who, touch) + [if last in who then touch.On(conns[last]) else conns[last]]
  }

  lemma {:induction false} TouchedAt(conns: seq<Conn>, who: set<nat>, touch: Touch)
    ensures forall i {:trigger Touched(conns, who, touch)[i]} | 0 <= i < |conns| ::
              Touched(conns, who, touch)[i] == if i in who then touch.On(conns[i]) else conns[i]
  {
    if conns != [] {
      TouchedAt(conns[..|conns| - 1], who, touch);
    }
  }

  function Without(loop: Loop, id: Option<nat>): Loop {
    if id.Some? then loop.(timers := loop.timers - {id.value}) else loop
  }

  function Armed(loop: Loop, timer: Timer): Loop {
    loop.(timers := loop.timers[loop.nextTimer := timer], nextTimer := loop.nextTimer + 1)
  }

  function NextTurn(s: Sys): Sys {
    s.(loop := s.loop.(turn := s.loop.turn + 1))
  }

  /** The heartbeat stops with the last sink. */
  function WithoutSinks(s: Sys, gone: set<nat>): Sys {
    var t := s.(sinks := s.sinks - gone);
    if t.sinks == {} then t.(loop := Without(t.loop, t.heartbeat), heartbeat := None) else t
  }

  /** One chunk to every sink; those whose socket throws are dropped instead. */
  function WrittenToAll(s: Sys, chunk: Chunk, throwing: set<nat>): Sys {
    WithoutSinks(
      s.(trace := s.trace.(
           conns := Touched(s.trace.conns, s.sinks - throwing, Write(chunk)),
           log := s.trace.log + [chunk])),
      throwing)
  }

  function ClosedAll(s: Sys): Sys {
    s.(loop := Without(Without(s.loop, s.pending), s.heartbeat),
       pending := None,
       heartbeat := None,
       sinks := {},
       trace := s.trace.(conns := Touched(s.trace.conns, s.sinks, End), closed := Some(s.loop.turn)))
  }

  function Emitted(s: Sys, kind: Kind): Sys {
    s.(lastEmitAt := Some(s.loop.now),
       chain := s.chain.(queued := s.chain.queued + 1),
       trace := s.trace.(emits := s.trace.emits + [Broadcast(s.loop.now, s.loop.turn, kind)]))
  }

  function Noted(s: Sys, e: Event): Sys {
    s.(trace := s.trace.(heard := s.trace.heard + [Heard(e, s.loop.now, s.loop.turn)]))
  }

  /** The coalescing gate. */
  function OnEvent(s: Sys, coalesceMs: nat, e: Event): Sys {
    var t := Noted(s, e);
    if e.IsTerminal() then
      Emitted(t.(sawTerminal := true, loop := Without(t.loop, t.pending), pending := None), AtTerminal)
    else if t.pending.Some? then t
    else if t.lastEmitAt.None? || t.loop.now - t.lastEmitAt.value >= coalesceMs then Emitted(t, Leading)
    else
      var elapsed := t.loop.now - t.lastEmitAt.value;
      t.(loop := Armed(t.loop, OneShot(t.loop.now + (coalesceMs - elapsed))), pending := Some(t.loop.nextTimer))
  }

  function NewConn(loop: Loop, trace: Trace): Conn {
    Conn(loop.turn, |trace.frames|, |trace.log|, true, [], false)
  }

  function Registered(s: Sys): Sys {
    var t := s.(
      sinks := s.sinks + {|s.trace.conns|},
      trace := s.trace.(conns := s.trace.conns + [NewConn(s.loop, s.trace)]));
    if t.heartbeat.Some? then t
    else t.(loop := Armed(t.loop, Interval(t.loop.now + HEARTBEAT_MS)), heartbeat := Some(t.loop.nextTimer))
  }

  function Unregistered(s: Sys, i: nat): Sys
    requires i < |s.trace.conns|
  {
    if !s.trace.conns[i].registered then s
    else WithoutSinks(s.(trace := s.trace.(conns := s.trace.conns[i := s.trace.conns[i].(registered := false)])), {i})
  }

  function PendingFired(s: Sys, id: nat): Sys {
    Emitted(s.(loop := Without(s.loop, Some(id)), pending := None), Trailing)
  }

  /** Heartbeat to all, then the safety net's probe unless it is disarmed. */
  function Beaten(s: Sys, throwing: set<nat>): Sys {
    var t := WrittenToAll(s, HeartbeatChunk, throwing);
    if t.sawTerminal || t.sinks == {} then t else t.(probes := t.probes + 1)
  }

  /** An interval that was not cleared is counted from when it fired. */
  function Rearmed(loop: Loop, id: nat): Loop {
    if id in loop.timers then loop.(timers := loop.timers[id := Interval(loop.now + HEARTBEAT_MS)]) else loop
  }

  function HeartbeatFired(s: Sys, id: nat, throwing: set<nat>): Sys {
    var t := Beaten(s, throwing);
    t.(loop := Rearmed(t.loop, id))
  }

  /** The state is looked at again after the read: another probe or an event may
      have got there first. */
  function ProbeSettled(s: Sys, status: Option<Status>): Sys
    requires s.probes > 0
  {
    var t := s.(probes := s.probes - 1);
    if status.None? || t.sawTerminal || t.sinks == {} then t
    else if status.value.SoldOut? then Emitted(t.(sawTerminal := true), SafetyNet)
    else if status.value.Ended? then t.(sawTerminal := true)
    else t
  }

  /** The next emit of the chain: no read at all when nobody listens. */
  function ChainStarted(s: Sys): Sys
    requires s.chain.queued > 0
  {
    s.(chain := s.chain.(queued := s.chain.queued - 1, looking := s.sinks != {}))
  }

  /** The active sale was found and its status is read now, or every stream is
      closed. */
  function LookupSettled(s: Sys, found: bool): Sys {
    var t := s.(chain := s.chain.(looking := false));
    if found then t.(chain := t.chain.(reading := Some(s.loop.turn))) else ClosedAll(t)
  }

  /** A read that failed closes every stream. */
  function ChainSettled(s: Sys, body: Option<Body>, throwing: set<nat>): Sys
    requires s.chain.reading.Some?
  {
    var t := s.(chain := s.chain.(reading := None));
    if body.None? then ClosedAll(t)
    else
      var frame := Frame(body.value, s.chain.reading.value);
      WrittenToAll(t.(trace := t.trace.(frames := t.trace.frames + [frame])), StatusChunk(frame), throwing)
  }

  lemma {:induction false} TouchOneMore(conns: seq<Conn>, who: set<nat>, touch: Touch, i: nat)
    requires i !in who && i < |conns|
    ensures Touched(conns, who + {i}, touch) == Touched(conns, who, touch)[i := touch.On(Touched(conns, who, touch)[i])]
  {
    TouchedAt(conns, who, touch);
    TouchedAt(conns, who + {i}, touch);
  }

  lemma {:induction false} TouchNobody(conns: seq<Conn>, touch: Touch)
    ensures Touched(conns, {}, touch) == conns
  {
    TouchedAt(conns, {}, touch);
  }

  // ---- the broadcaster as the process runs it ----

  class Broadcaster {
    const coalesceMs: nat
    var loop: Loop
    var sinks: set<nat>
    var heartbeat: Option<nat>
    var pending: Option<nat>
    var lastEmitAt: Option<int>
    var sawTerminal: bool
    var chain: Chain
    var probes: nat
    var trace: Trace

    function View(): Sys
      reads this
    {
      Sys(loop, sinks, heartbeat, pending, lastEmitAt, sawTerminal, chain, probes, trace)
    }

    /** Some run of the event loop led here, so every run theorem below holds. */
    ghost predicate Valid()
      reads this
    {
      Reachable(coalesceMs, false, View())
    }

    /** What the handlers need of it: sinks are known connections, and the
        heartbeat runs for somebody. */
    ghost predicate Attached()
      reads this
    {
      && (forall i | i in sinks :: i < |trace.conns|)
      && (sinks == {} ==> heartbeat.None?)
    }

    constructor (coalesceMs: nat, now: int)
      ensures this.coalesceMs == coalesceMs && Valid() && Init(View()) && loop.now == now
    {
      this.coalesceMs, loop := coalesceMs, Loop(now, 0, map[], 0);
      sinks, heartbeat, pending, lastEmitAt, sawTerminal := {}, None, None, None, false;
      chain, probes, trace := IDLE, 0, Trace([], [], [], [], [], None);
      new;
      InitIsReachable(coalesceMs, false, View());
    }

    method StopHeartbeat()
      modifies `loop, `heartbeat
      ensures heartbeat.None? && loop == Without(old(loop), old(heartbeat))
    {
      if heartbeat.Some? {
        loop := loop.(timers := loop.timers - {heartbeat.value});
        heartbeat := None;
      }
    }

    method CancelPending()
      modifies `loop, `pending
      ensures pending.None? && loop == Without(old(loop), old(pending))
    {
      if pending.Some? {
        loop := loop.(timers := loop.timers - {pending.value});
        pending := None;
      }
    }

    method Drop(sink: nat)
      modifies `sinks, `loop, `heartbeat
      ensures sinks == old(sinks) - {sink}
      ensures heartbeat == if sinks == {} then None else old(heartbeat)
      ensures loop == if sinks == {} then Without(old(loop), old(heartbeat)) else old(loop)
    {
      sinks := sinks - {sink};
      if sinks == {} {
        StopHeartbeat();
      }
    }

    /** A dead socket is dropped, never propagated. */
    method WriteTo(sink: nat, chunk: Chunk, throws: bool)
      requires sink < |trace.conns|
      modifies `trace, `sinks, `loop, `heartbeat
      ensures sinks == if throws then old(sinks) - {sink} else old(sinks)
      ensures trace == if throws then old(trace)
                       else old(trace).(conns := old(trace.conns)[sink := Write(chunk).On(old(trace.conns[sink]))])
      ensures heartbeat == if throws && sinks == {} then None else old(heartbeat)
      ensures loop == if throws && sinks == {} then Without(old(loop), old(heartbeat)) else old(loop)
    {
      if throws {
        Drop(sink);
      } else {
        var conn := trace.conns[sink];
        trace := trace.(conns := trace.conns[sink := conn.(out := conn.out + [chunk])]);
      }
    }

    /** The loop over a copy of the sinks, which shrinks underneath it. */
    method WriteToAll(chunk: Chunk, throwing: set<nat>)
      requires Attached()
      modifies `trace, `sinks, `loop, `heartbeat
      ensures sinks == old(sinks) - throwing
      ensures trace == old(trace).(conns := Touched(old(trace.conns), old(sinks) - throwing, Write(chunk)),
                                   log := old(trace.log) + [chunk])
      ensures heartbeat == if sinks == {} then None else old(heartbeat)
      ensures loop == if sinks == {} then Without(old(loop), old(heartbeat)) else old(loop)
    {
      ghost var written: set<nat>, dropped: set<nat> := {}, {};
      trace := trace.(log := trace.log + [chunk]);
      var todo := sinks;
      TouchNobody(trace.conns, Write(chunk));
      while todo != {}
        invariant todo !! written && sinks == todo + written
        invariant written !! throwing && dropped <= throwing
        invariant todo + written + dropped == old(sinks)
        invariant trace == old(trace).(conns := Touched(old(trace.conns), written, Write(chunk)),
                                       log := old(trace.log) + [chunk])
        invariant heartbeat == if sinks == {} then None else old(heartbeat)
        invariant loop == if sinks == {} then Without(old(loop), old(heartbeat)) else old(loop)
        decreases todo
      {
        var sink :| sink in todo;
        TouchOneMore(old(trace.conns), written, Write(chunk), sink);
        WriteTo(sink, chunk, sink in throwing);
        todo := todo - {sink};
        if sink in throwing {
          dropped := dropped + {sink};
        } else {
          written := written + {sink};
        }
      }
      assert written == old(sinks) - throwing;
    }

    /** An already dead socket is ended all the same. */
    method EndAll()
      requires Attached()
      modifies `trace
      ensures trace == old(trace).(conns := Touched(old(trace.conns), sinks, End))
    {
      ghost var done: set<nat> := {};
      var todo := sinks;
      TouchNobody(trace.conns, End);
      while todo != {}
        invariant done + todo == sinks && done !! todo
        invariant trace == old(trace).(conns := Touched(old(trace.conns), done, End))
        decreases todo
      {
        var sink :| sink in todo;
        TouchOneMore(old(trace.conns), done, End, sink);
        trace := trace.(conns := trace.conns[sink := trace.conns[sink].(ended := true)]);
        todo, done := todo - {sink}, done + {sink};
      }
      assert done == sinks;
    }

    method CloseAll()
      requires Attached()
      modifies `trace, `sinks, `loop, `heartbeat, `pending
      ensures sinks == {} && pending.None? && heartbeat.None?
      ensures loop == Without(Without(old(loop), old(pending)), old(heartbeat))
      ensures trace == old(trace).(conns := Touched(old(trace.conns), old(sinks), End), closed := Some(old(loop.turn)))
    {
      CancelPending();
      StopHeartbeat();
      EndAll();
      sinks := {};
      trace := trace.(closed := Some(loop.turn));
    }

    method Emit(kind: Kind)
      modifies `lastEmitAt, `chain, `trace
      ensures View() == Emitted(old(View()), kind)
    {
      lastEmitAt := Some(loop.now);
      chain := chain.(queued := chain.queued + 1);
      trace := trace.(emits := trace.emits + [Broadcast(loop.now, loop.turn, kind)]);
    }

    method OnDomainEvent(event: Event)
      requires Attached()
      modifies this
      ensures View() == OnEvent(old(View()), coalesceMs, event)
    {
      trace := trace.(heard := trace.heard + [Heard(event, loop.now, loop.turn)]);
      if event.IsTerminal() {
        sawTerminal := true;
        CancelPending();
        Emit(AtTerminal);
        return;
      }
      if pending.Some? {
        return;
      }
      if lastEmitAt.None? || loop.now - lastEmitAt.value >= coalesceMs {
        Emit(Leading);
        return;
      }
      var elapsed := loop.now - lastEmitAt.value;
      pending := Some(loop.nextTimer);
      loop := Armed(loop, OneShot(loop.now + (coalesceMs - elapsed)));
    }

    method Register() returns (sink: nat)
      requires Attached()
      modifies this
      ensures View() == Registered(old(View())) && sink == |old(trace.conns)|
    {
      sink := |trace.conns|;
      sinks := sinks + {sink};
      trace := trace.(conns := trace.conns + [NewConn(loop, trace)]);
      if heartbeat.None? {
        heartbeat := Some(loop.nextTimer);
        loop := Armed(loop, Interval(loop.now + HEARTBEAT_MS));
      }
    }

    method Unregister(sink: nat)
      requires Attached() && sink < |trace.conns|
      modifies this
      ensures View() == Unregistered(old(View()), sink)
    {
      if !trace.conns[sink].registered {
        return;
      }
      trace := trace.(conns := trace.conns[sink := trace.conns[sink].(registered := false)]);
      Drop(sink);
    }

    method Stop()
      requires Attached()
      modifies this
      ensures View() == ClosedAll(old(View()))
    {
      CloseAll();
    }

    method OnPendingTimer(id: nat)
      requires Attached()
      modifies this
      ensures View() == PendingFired(old(View()), id)
    {
      loop := loop.(timers := loop.timers - {id});
      pending := None;
      Emit(Trailing);
    }

    method OnHeartbeatTimer(throwing: set<nat>)
      requires Attached()
      modifies this
      ensures View() == Beaten(old(View()), throwing)
    {
      WriteToAll(HeartbeatChunk, throwing);
      if !sawTerminal {
        if sinks != {} {
          probes := probes + 1;
        }
      }
    }

    method OnProbeSettled(status: Option<Status>)
      requires Attached() && probes > 0
      modifies this
      ensures View() == ProbeSettled(old(View()), status)
    {
      probes := probes - 1;
      if status.None? || sawTerminal || sinks == {} {
        return;
      }
      if status.value.SoldOut? {
        sawTerminal := true;
        Emit(SafetyNet);
      } else if status.value.Ended? {
        sawTerminal := true;
      }
    }

    method StartNext()
      requires Attached() && chain.queued > 0
      modifies this
      ensures View() == ChainStarted(old(View()))
    {
      chain := chain.(queued := chain.queued - 1);
      chain := chain.(looking := sinks != {});
    }

    method OnActiveSale(found: bool)
      requires Attached()
      modifies this
      ensures View() == LookupSettled(old(View()), found)
    {
      chain := chain.(looking := false);
      if found {
        chain := chain.(reading := Some(loop.turn));
      } else {
        CloseAll();
      }
    }

    method OnStatusRead(body: Option<Body>, throwing: set<nat>)
      requires Attached() && chain.reading.Some?
      modifies this
      ensures View() == ChainSettled(old(View()), body, throwing)
    {
      var readFrom := chain.reading.value;
      chain := chain.(reading := None);
      if body.None? {
        CloseAll();
        return;
      }
      var frame := Frame(body.value, readFrom);
      trace := trace.(frames := trace.frames + [frame]);
      WriteToAll(StatusChunk(frame), throwing);
    }

    /** One turn of the event loop. Keeps the object on a run of the machine. */
    method Turn(step: Step)
      requires Valid() && Enabled(View(), step)
      modifies this
      ensures Valid() && View() == Apply(coalesceMs, old(View()), step)
    {
      OneMoreStep(coalesceMs, false, View(), step);
      assert Attached() by {
        ReachableInv(coalesceMs, false, View());
        assert Holds(PShape, coalesceMs, View());
      }
      match step {
        case Tick(ms) => loop := loop.(now := loop.now + ms);
        case Hears(event) => OnDomainEvent(event);
        case Registers => var _ := Register();
        case Unregisters(sink) => Unregister(sink);
        case ClosesAll => Stop();
        case TimerFires(id, throwing) =>
          if loop.timers[id].OneShot? {
            OnPendingTimer(id);
          } else {
            OnHeartbeatTimer(throwing);
            loop := Rearmed(loop, id);
          }
        case ProbeSettles(status) => OnProbeSettled(status);
        case ChainStarts => StartNext();
        case LookupSettles(found) => OnActiveSale(found);
        case ChainSettles(body, throwing) => OnStatusRead(body, throwing);
      }
      loop := loop.(turn := loop.turn + 1);
    }
  }

  // ---- runs ----

  datatype Step =
    | Tick(ms: nat)
    | Hears(event: Event)
    | Registers
    | Unregisters(sink: nat)
    | ClosesAll
    | TimerFires(id: nat, throwing: set<nat>)
    | ProbeSettles(status: Option<Status>)
    | ChainStarts
    | LookupSettles(found: bool)
    | ChainSettles(body: Option<Body>, throwing: set<nat>)

  ghost predicate Init(s: Sys) {
    exists now ::
      s == Sys(Loop(now, 0, map[], 0), {}, None, None, None, false, IDLE, 0, Trace([], [], [], [], [], None))
  }

  /** No timer fires early. */
  predicate Enabled(s: Sys, step: Step) {
    match step
    case Unregisters(i) => i < |s.trace.conns|
    case TimerFires(id, _) => id in s.loop.timers && s.loop.timers[id].due <= s.loop.now
    case ProbeSettles(_) => s.probes > 0
    case ChainStarts => s.chain.queued > 0 && !s.chain.looking && s.chain.reading.None?
    case LookupSettles(_) => s.chain.looking
    case ChainSettles(_, _) => s.chain.reading.Some?
    case _ => true
  }

  /** Nor late: the clock does not pass a due timer. */
  predicate OnTime(s: Sys, step: Step) {
    step.Tick? ==>
      forall id {:trigger s.loop.timers[id]} | id in s.loop.timers ::
        s.loop.now + step.ms <= s.loop.timers[id].due
  }

  function Handle(coalesceMs: nat, s: Sys, step: Step): Sys
    requires Enabled(s, step)
  {
    match step
    case Tick(ms) => s.(loop := s.loop.(now := s.loop.now + ms))
    case Hears(e) => OnEvent(s, coalesceMs, e)
    case Registers => Registered(s)
    case Unregisters(i) => Unregistered(s, i)
    case ClosesAll => ClosedAll(s)
    case TimerFires(id, throwing) =>
      if s.loop.timers[id].OneShot? then PendingFired(s, id) else HeartbeatFired(s, id, throwing)
    case ProbeSettles(status) => ProbeSettled(s, status)
    case ChainStarts => ChainStarted(s)
    case LookupSettles(found) => LookupSettled(s, found)
    case ChainSettles(body, throwing) => ChainSettled(s, body, throwing)
  }

  function Apply(coalesceMs: nat, s: Sys, step: Step): Sys
    requires Enabled(s, step)
  {
    NextTurn(Handle(coalesceMs, s, step))
  }

  // ---- the invariant, part by part ----

  /** Armed timers are exactly the two the broadcaster remembers. */
  ghost predicate Shape(s: Sys) {
    && (forall i | i in s.sinks :: i < |s.trace.conns|)
    && (s.heartbeat.Some? <==> s.sinks != {})
    && (s.pending.Some? ==> s.pending.value in s.loop.timers && s.loop.timers[s.pending.value].OneShot?)
    && (s.heartbeat.Some? ==> s.heartbeat.value in s.loop.timers && s.loop.timers[s.heartbeat.value].Interval?)
    && (s.pending.None? && s.heartbeat.None? ==> s.loop.timers == map[])
    && (forall id {:trigger s.loop.timers[id]} | id in s.loop.timers ::
          && id < s.loop.nextTimer
          && if s.loop.timers[id].OneShot? then s.pending == Some(id) else s.heartbeat == Some(id))
  }

  ghost predicate EmitTimes(s: Sys) {
    && (s.lastEmitAt.None? <==> s.trace.emits == [])
    && (s.lastEmitAt.Some? ==>
          s.lastEmitAt.value <= s.loop.now && s.lastEmitAt.value == s.trace.emits[|s.trace.emits| - 1].at)
    && (forall j {:trigger s.trace.emits[j]} | 0 <= j < |s.trace.emits| ::
          s.lastEmitAt.Some? && s.trace.emits[j].at <= s.lastEmitAt.value)
  }

  ghost predicate HeardTimes(s: Sys) {
    forall k {:trigger s.trace.heard[k]} | 0 <= k < |s.trace.heard| ::
      s.trace.heard[k].at <= s.loop.now && s.trace.heard[k].turn < s.loop.turn
  }

  ghost predicate Spaced(s: Sys, c: nat) {
    forall i, j {:trigger s.trace.emits[i], s.trace.emits[j]} | 0 <= i < j < |s.trace.emits| ::
      !s.trace.emits[i].kind.SafetyNet? && s.trace.emits[j].kind.IsOrdinary() ==>
          s.trace.emits[i].at + c <= s.trace.emits[j].at
  }

  /** The pending emit is spaced too, and no more than the interval away. */
  ghost predicate PendingSpaced(s: Sys, c: nat) {
    s.pending.Some? && s.pending.value in s.loop.timers && s.loop.timers[s.pending.value].OneShot? ==>
      var due := s.loop.timers[s.pending.value].due;
      && due <= s.loop.now + c
      && forall i {:trigger s.trace.emits[i]} | 0 <= i < |s.trace.emits| ::
           !s.trace.emits[i].kind.SafetyNet? ==> s.trace.emits[i].at + c <= due
  }

  ghost predicate NetDisarmed(s: Sys) {
    && (forall i {:trigger s.trace.emits[i]} | 0 <= i < |s.trace.emits| ::
         !s.trace.emits[i].kind.IsOrdinary() ==> s.sawTerminal)
    && (forall i, j {:trigger s.trace.emits[i], s.trace.emits[j]} | 0 <= i < j < |s.trace.emits| ::
          !s.trace.emits[i].kind.IsOrdinary() ==> !s.trace.emits[j].kind.SafetyNet?)
  }

  /** Frames go out in the order their reads began; the read in flight is later. */
  ghost predicate ReadsInOrder(s: Sys) {
    && (s.chain.reading.Some? ==> s.chain.reading.value < s.loop.turn && !s.chain.looking)
    && (forall j {:trigger s.trace.frames[j]} | 0 <= j < |s.trace.frames| ::
          s.trace.frames[j].readFrom < if s.chain.reading.Some? then s.chain.reading.value else s.loop.turn)
    && (forall j, k {:trigger s.trace.frames[j], s.trace.frames[k]} | 0 <= j < k < |s.trace.frames| ::
          s.trace.frames[j].readFrom < s.trace.frames[k].readFrom)
  }

  function Statuses(out: seq<Chunk>): seq<Frame> {
    if out == [] then []
    else
      var rest := Statuses(out[..|out| - 1]);
      if out[|out| - 1].StatusChunk? then rest + [out[|out| - 1].frame] else rest
  }

  /** A connection got a slice of the broadcast frames, beginning when it
      registered and, while it is a sink, up to now. */
  ghost predicate SliceOf(frames: seq<Frame>, conn: Conn, current: bool) {
    && conn.skipped <= |frames|
    && Statuses(conn.out) <= frames[conn.skipped..]
    && (current ==> Statuses(conn.out) == frames[conn.skipped..])
  }

  ghost predicate Slices(s: Sys) {
    forall i {:trigger s.trace.conns[i]} | 0 <= i < |s.trace.conns| ::
        SliceOf(s.trace.frames, s.trace.conns[i], i in s.sinks)
  }

  /** The same of all chunks, heartbeats included. */
  ghost predicate LogOf(log: seq<Chunk>, conn: Conn, current: bool) {
    && conn.missed <= |log|
    && conn.out <= log[conn.missed..]
    && (current ==> conn.out == log[conn.missed..])
  }

  ghost predicate Logged(s: Sys) {
    forall i {:trigger s.trace.conns[i]} | 0 <= i < |s.trace.conns| ::
        LogOf(s.trace.log, s.trace.conns[i], i in s.sinks)
  }

  /** A frame read after turn `since` has gone out or is on its way. */
  ghost predicate Coming(s: Sys, conn: Conn, since: nat) {
    || s.chain.queued > 0 || s.chain.looking
    || (s.chain.reading.Some? && s.chain.reading.value > since)
    || (|s.trace.frames| > conn.skipped && s.trace.frames[|s.trace.frames| - 1].readFrom > since)
  }

  ghost predicate FreshAt(s: Sys, i: nat)
    requires i < |s.trace.conns|
  {
    s.trace.heard != [] && i in s.sinks ==>
      var event := s.trace.heard[|s.trace.heard| - 1].turn;
      s.trace.conns[i].since < event ==> s.pending.Some? || Coming(s, s.trace.conns[i], event)
  }

  ghost predicate Fresh(s: Sys) {
    forall i {:trigger FreshAt(s, i)} | 0 <= i < |s.trace.conns| :: FreshAt(s, i)
  }

  /** The same counted from the last emit, whoever asked for it. */
  ghost predicate EmitFreshAt(s: Sys, i: nat)
    requires i < |s.trace.conns|
  {
    s.trace.emits != [] && i in s.sinks ==>
      var emit := s.trace.emits[|s.trace.emits| - 1].turn;
      s.trace.conns[i].since < emit ==> Coming(s, s.trace.conns[i], emit)
  }

  ghost predicate EmitFresh(s: Sys) {
    forall i {:trigger EmitFreshAt(s, i)} | 0 <= i < |s.trace.conns| :: EmitFreshAt(s, i)
  }

  /** Emits and registrations lie in the past. */
  ghost predicate PastTurns(s: Sys) {
    && (forall j {:trigger s.trace.emits[j]} | 0 <= j < |s.trace.emits| :: s.trace.emits[j].turn < s.loop.turn)
    && (forall i {:trigger s.trace.conns[i]} | 0 <= i < |s.trace.conns| :: s.trace.conns[i].since < s.loop.turn)
  }

  ghost predicate NotLate(s: Sys) {
    forall id {:trigger s.loop.timers[id]} | id in s.loop.timers :: s.loop.now <= s.loop.timers[id].due
  }

  /** The heartbeat is never more than its interval away. */
  ghost predicate BeatNear(s: Sys) {
    forall id {:trigger s.loop.timers[id]} | id in s.loop.timers && s.loop.timers[id].Interval? ::
      s.loop.timers[id].due <= s.loop.now + HEARTBEAT_MS
  }

  /** The event was or will be answered within the interval, or all streams were
      closed after it. */
  ghost predicate Answered(s: Sys, c: nat, h: Heard) {
    || (exists j {:trigger s.trace.emits[j]} :: 0 <= j < |s.trace.emits| && AnswersIn(s.trace.emits[j], h, c))
    || (s.pending.Some? && s.pending.value in s.loop.timers && s.loop.timers[s.pending.value].OneShot?
        && s.loop.timers[s.pending.value].due <= h.at + c)
    || (s.trace.closed.Some? && s.trace.closed.value >= h.turn)
  }

  predicate AnswersIn(b: Broadcast, h: Heard, c: nat) {
    b.turn >= h.turn && h.at <= b.at <= h.at + c
  }

  ghost predicate Prompt(s: Sys, c: nat) {
    forall k {:trigger s.trace.heard[k]} | 0 <= k < |s.trace.heard| :: Answered(s, c, s.trace.heard[k])
  }

  datatype Part =
    | PShape | PEmitTimes | PHeardTimes | PSpaced | PPendingSpaced | PNet | PReads | PSlices | PLogged
    | PFresh | PPastTurns | PEmitFresh | PBeatNear | PNotLate | PPrompt

  ghost predicate Holds(p: Part, c: nat, s: Sys) {
    match p
    case PShape => Shape(s)
    case PEmitTimes => EmitTimes(s)
    case PHeardTimes => HeardTimes(s)
    case PSpaced => Spaced(s, c)
    case PPendingSpaced => PendingSpaced(s, c)
    case PNet => NetDisarmed(s)
    case PReads => ReadsInOrder(s)
    case PSlices => Slices(s)
    case PLogged => Logged(s)
    case PFresh => Fresh(s)
    case PPastTurns => PastTurns(s)
    case PEmitFresh => EmitFresh(s)
    case PBeatNear => BeatNear(s)
    case PNotLate => NotLate(s)
    case PPrompt => Prompt(s, c)
  }

  /** The last two parts need timers that are not late. */
  ghost predicate Inv(c: nat, punctual: bool, s: Sys) {
    forall p: Part {:trigger Holds(p, c, s)} :: (p.PNotLate? || p.PPrompt? ==> punctual) ==> Holds(p, c, s)
  }

  // ---- each step keeps each part ----

  lemma {:induction false} ShapeAfterEvent(c: nat, s: Sys, e: Event)
    requires Shape(s)
    ensures Shape(OnEvent(s, c, e))
  {
  }

  lemma {:induction false} ShapeWithoutSinks(s: Sys, gone: set<nat>)
    requires Shape(s)
    ensures Shape(WithoutSinks(s, gone))
  {
  }

  lemma {:induction false} ShapeAfterTimer(c: nat, s: Sys, id: nat, throwing: set<nat>)
    requires Shape(s) && Enabled(s, TimerFires(id, throwing))
    ensures Shape(Handle(c, s, TimerFires(id, throwing)))
  {
    if s.loop.timers[id].Interval? {
      ShapeBeaten(s, throwing);
      ShapeRearmed(Beaten(s, throwing), id);
    }
  }

  lemma {:induction false} ShapeWritten(s: Sys, chunk: Chunk, throwing: set<nat>)
    requires Shape(s)
    ensures Shape(WrittenToAll(s, chunk, throwing))
  {
    ShapeWithoutSinks(
      s.(trace := s.trace.(
           conns := Touched(s.trace.conns, s.sinks - throwing, Write(chunk)),
           log := s.trace.log + [chunk])),
      throwing);
  }

  lemma {:induction false} ShapeBeaten(s: Sys, throwing: set<nat>)
    requires Shape(s)
    ensures Shape(Beaten(s, throwing))
  {
    ShapeWritten(s, HeartbeatChunk, throwing);
  }

  lemma {:induction false} ShapeRearmed(s: Sys, id: nat)
    requires Shape(s) && (id in s.loop.timers ==> s.loop.timers[id].Interval?)
    ensures Shape(s.(loop := Rearmed(s.loop, id)))
  {
  }

  lemma {:induction false} ShapeAfterRead(s: Sys, body: Option<Body>, throwing: set<nat>)
    requires Shape(s) && s.chain.reading.Some?
    ensures Shape(ChainSettled(s, body, throwing))
  {
    if body.Some? {
      var frame := Frame(body.value, s.chain.reading.value);
      ShapeWritten(
        s.(chain := s.chain.(reading := None), trace := s.trace.(frames := s.trace.frames + [frame])),
        StatusChunk(frame), throwing);
    }
  }

  lemma {:induction false} ShapeRegistered(s: Sys)
    requires Shape(s)
    ensures Shape(Registered(s))
  {
  }

  lemma {:induction false} ShapeUnregistered(s: Sys, i: nat)
    requires Shape(s) && i < |s.trace.conns|
    ensures Shape(Unregistered(s, i))
  {
    ShapeWithoutSinks(s.(trace := s.trace.(conns := s.trace.conns[i := s.trace.conns[i].(registered := false)])), {i});
  }

  lemma {:induction false} ShapeKept(c: nat, s: Sys, step: Step)
    requires Shape(s) && Enabled(s, step)
    ensures Shape(Apply(c, s, step))
  {
    match step
    case Hears(e) => ShapeAfterEvent(c, s, e);
    case TimerFires(id, throwing) => ShapeAfterTimer(c, s, id, throwing);
    case ChainSettles(body, throwing) => ShapeAfterRead(s, body, throwing);
    case Registers => ShapeRegistered(s);
    case Unregisters(i) => ShapeUnregistered(s, i);
    case _ =>
  }

  lemma {:induction false} EmitTimesAfterEvent(c: nat, s: Sys, e: Event)
    requires EmitTimes(s)
    ensures EmitTimes(OnEvent(s, c, e))
  {
  }

  lemma {:induction false} EmitTimesAfterTimer(c: nat, s: Sys, id: nat, throwing: set<nat>)
    requires EmitTimes(s) && Enabled(s, TimerFires(id, throwing))
    ensures EmitTimes(Handle(c, s, TimerFires(id, throwing)))
  {
  }

  lemma {:induction false} EmitTimesKept(c: nat, s: Sys, step: Step)
    requires EmitTimes(s) && Enabled(s, step)
    ensures EmitTimes(Apply(c, s, step))
  {
    match step
    case Hears(e) => EmitTimesAfterEvent(c, s, e);
    case TimerFires(id, throwing) => EmitTimesAfterTimer(c, s, id, throwing);
    case _ =>
  }

  lemma {:induction false} HeardKept(c: nat, s: Sys, step: Step)
    requires Enabled(s, step)
    ensures var t := Apply(c, s, step);
            && t.trace.heard ==
                 s.trace.heard + (if step.Hears? then [Heard(step.event, s.loop.now, s.loop.turn)] else [])
            && t.loop.now >= s.loop.now && t.loop.turn == s.loop.turn + 1
  {
  }

  lemma {:induction false} HeardTimesKept(c: nat, s: Sys, step: Step)
    requires HeardTimes(s) && Enabled(s, step)
    ensures HeardTimes(Apply(c, s, step))
  {
    HeardKept(c, s, step);
  }

  lemma {:induction false} SpacedAfterEvent(c: nat, s: Sys, e: Event)
    requires EmitTimes(s) && Spaced(s, c)
    ensures Spaced(OnEvent(s, c, e), c)
  {
  }

  lemma {:induction false} SpacedAfterPending(c: nat, s: Sys, id: nat)
    requires EmitTimes(s) && Spaced(s, c) && PendingSpaced(s, c)
    requires s.pending == Some(id) && id in s.loop.timers
    requires s.loop.timers[id].OneShot? && s.loop.timers[id].due <= s.loop.now
    ensures Spaced(PendingFired(s, id), c)
  {
  }

  lemma {:induction false} SpacedKept(c: nat, s: Sys, step: Step)
    requires Shape(s) && EmitTimes(s) && Spaced(s, c) && PendingSpaced(s, c) && Enabled(s, step)
    ensures Spaced(Apply(c, s, step), c)
  {
    match step
    case Hears(e) => SpacedAfterEvent(c, s, e);
    case TimerFires(id, _) =>
      if s.loop.timers[id].OneShot? {
        SpacedAfterPending(c, s, id);
      }
    case _ =>
  }

  lemma {:induction false} PendingSpacedAfterEvent(c: nat, s: Sys, e: Event)
    requires Shape(s) && EmitTimes(s) && PendingSpaced(s, c)
    ensures PendingSpaced(OnEvent(s, c, e), c)
  {
  }

  lemma {:induction false} PendingSpacedAfterTimer(c: nat, s: Sys, id: nat, throwing: set<nat>)
    requires Shape(s) && PendingSpaced(s, c) && Enabled(s, TimerFires(id, throwing))
    ensures PendingSpaced(Handle(c, s, TimerFires(id, throwing)), c)
  {
  }

  lemma {:induction false} PendingSpacedKept(c: nat, s: Sys, step: Step)
    requires Shape(s) && EmitTimes(s) && PendingSpaced(s, c) && Enabled(s, step)
    ensures PendingSpaced(Apply(c, s, step), c)
  {
    match step
    case Hears(e) => PendingSpacedAfterEvent(c, s, e);
    case TimerFires(id, throwing) => PendingSpacedAfterTimer(c, s, id, throwing);
    case _ =>
  }

  lemma {:induction false} NetKept(c: nat, s: Sys, step: Step)
    requires NetDisarmed(s) && Enabled(s, step)
    ensures NetDisarmed(Apply(c, s, step))
  {
  }

  lemma {:induction false} ReadsAfterRead(s: Sys, body: Option<Body>, throwing: set<nat>)
    requires ReadsInOrder(s) && s.chain.reading.Some?
    ensures ReadsInOrder(NextTurn(ChainSettled(s, body, throwing)))
  {
  }

  lemma {:induction false} ReadsAfterStart(s: Sys)
    requires ReadsInOrder(s) && Enabled(s, ChainStarts)
    ensures ReadsInOrder(NextTurn(ChainStarted(s)))
  {
  }

  lemma {:induction false} ReadsAfterLookup(s: Sys, found: bool)
    requires ReadsInOrder(s) && Enabled(s, LookupSettles(found))
    ensures ReadsInOrder(NextTurn(LookupSettled(s, found)))
  {
  }

  lemma {:induction false} ReadsUntouched(c: nat, s: Sys, step: Step)
    requires Enabled(s, step) && !step.ChainStarts? && !step.LookupSettles? && !step.ChainSettles?
    ensures var t := Handle(c, s, step);
            && t.chain.looking == s.chain.looking && t.chain.reading == s.chain.reading
            && t.trace.frames == s.trace.frames && t.loop.turn == s.loop.turn
  {
  }

  lemma {:induction false} ReadsKept(c: nat, s: Sys, step: Step)
    requires ReadsInOrder(s) && Enabled(s, step)
    ensures ReadsInOrder(Apply(c, s, step))
  {
    match step
    case ChainStarts => ReadsAfterStart(s);
    case LookupSettles(found) => ReadsAfterLookup(s, found);
    case ChainSettles(body, throwing) => ReadsAfterRead(s, body, throwing);
    case _ => ReadsUntouched(c, s, step);
  }

  lemma {:induction false} StatusesAppend(out: seq<Chunk>, chunk: Chunk)
    ensures Statuses(out + [chunk]) == Statuses(out) + if chunk.StatusChunk? then [chunk.frame] else []
  {
    assert (out + [chunk])[..|out|] == out;
  }

  lemma {:induction false} SliceGrows(frames: seq<Frame>, conn: Conn, chunk: Chunk, current: bool, written: bool)
    requires SliceOf(frames, conn, current) && (written ==> current)
    ensures var more := frames + if chunk.StatusChunk? then [chunk.frame] else [];
            if written then SliceOf(more, Write(chunk).On(conn), true) else SliceOf(more, conn, false)
  {
    StatusesAppend(conn.out, chunk);
    var more := if chunk.StatusChunk? then [chunk.frame] else [];
    assert (frames + more)[conn.skipped..] == frames[conn.skipped..] + more;
  }

  /** One chunk written to the sinks that do not throw, one more frame for the
      record when the chunk is a status. */
  lemma {:induction false} SlicesWritten(s: Sys, chunk: Chunk, throwing: set<nat>, frames: seq<Frame>)
    requires Slices(s)
    requires frames == s.trace.frames + if chunk.StatusChunk? then [chunk.frame] else []
    ensures Slices(WrittenToAll(s.(trace := s.trace.(frames := frames)), chunk, throwing))
  {
    var to := s.sinks - throwing;
    var t := WrittenToAll(s.(trace := s.trace.(frames := frames)), chunk, throwing);
    TouchedAt(s.trace.conns, to, Write(chunk));
    forall i | 0 <= i < |t.trace.conns| ensures SliceOf(frames, t.trace.conns[i], i in t.sinks) {
      SliceGrows(s.trace.frames, s.trace.conns[i], chunk, i in s.sinks, i in to);
      assert t.trace.conns[i] == if i in to then Write(chunk).On(s.trace.conns[i]) else s.trace.conns[i];
    }
  }

  lemma {:induction false} SlicesClosed(s: Sys)
    requires Slices(s)
    ensures Slices(ClosedAll(s))
  {
    TouchedAt(s.trace.conns, s.sinks, End);
    var t := ClosedAll(s);
    forall i | 0 <= i < |t.trace.conns| ensures SliceOf(t.trace.frames, t.trace.conns[i], i in t.sinks) {
      assert SliceOf(s.trace.frames, s.trace.conns[i], i in s.sinks);
    }
  }

  lemma {:induction false} SlicesKept(c: nat, s: Sys, step: Step)
    requires Slices(s) && Shape(s) && Enabled(s, step)
    ensures Slices(Apply(c, s, step))
  {
    match step
    case ClosesAll => SlicesClosed(s);
    case LookupSettles(found) => SlicesClosed(s.(chain := s.chain.(looking := false)));
    case TimerFires(id, throwing) =>
      if s.loop.timers[id].Interval? {
        SlicesWritten(s, HeartbeatChunk, throwing, s.trace.frames);
      }
    case ChainSettles(body, throwing) =>
      var t := s.(chain := s.chain.(reading := None));
      if body.None? {
        SlicesClosed(t);
      } else {
        var frame := Frame(body.value, s.chain.reading.value);
        SlicesWritten(t, StatusChunk(frame), throwing, t.trace.frames + [frame]);
      }
    case Unregisters(i) => SlicesUnregistered(s, i);
    case Registers => SlicesRegistered(s);
    case _ => CalmTurn(c, s, step);
  }

  lemma {:induction false} SlicesRegistered(s: Sys)
    requires Shape(s) && Slices(s)
    ensures Slices(Registered(s))
  {
    var t := Registered(s);
    forall i | 0 <= i < |t.trace.conns| ensures SliceOf(t.trace.frames, t.trace.conns[i], i in t.sinks) {
      if i < |s.trace.conns| {
        assert SliceOf(s.trace.frames, s.trace.conns[i], i in s.sinks);
      }
    }
  }

  lemma {:induction false} SlicesUnregistered(s: Sys, i: nat)
    requires i < |s.trace.conns| && Slices(s)
    ensures Slices(Unregistered(s, i))
  {
    var t := Unregistered(s, i);
    forall j | 0 <= j < |t.trace.conns| ensures SliceOf(t.trace.frames, t.trace.conns[j], j in t.sinks) {
      assert SliceOf(s.trace.frames, s.trace.conns[j], j in s.sinks);
    }
  }

  lemma {:induction false} LoggedWritten(s: Sys, chunk: Chunk, throwing: set<nat>)
    requires Logged(s)
    ensures Logged(WrittenToAll(s, chunk, throwing))
  {
    var to := s.sinks - throwing;
    var t := WrittenToAll(s, chunk, throwing);
    TouchedAt(s.trace.conns, to, Write(chunk));
    forall i | 0 <= i < |t.trace.conns| ensures LogOf(t.trace.log, t.trace.conns[i], i in t.sinks) {
      var conn := s.trace.conns[i];
      assert LogOf(s.trace.log, conn, i in s.sinks);
      assert t.trace.conns[i] == if i in to then Write(chunk).On(conn) else conn;
      assert t.trace.log[conn.missed..] == s.trace.log[conn.missed..] + [chunk];
    }
  }

  lemma {:induction false} LoggedClosed(s: Sys)
    requires Logged(s)
    ensures Logged(ClosedAll(s))
  {
    TouchedAt(s.trace.conns, s.sinks, End);
    var t := ClosedAll(s);
    forall i | 0 <= i < |t.trace.conns| ensures LogOf(t.trace.log, t.trace.conns[i], i in t.sinks) {
      assert LogOf(s.trace.log, s.trace.conns[i], i in s.sinks);
    }
  }

  lemma {:induction false} LoggedKept(c: nat, s: Sys, step: Step)
    requires Logged(s) && Shape(s) && Enabled(s, step)
    ensures Logged(Apply(c, s, step))
  {
    match step
    case ClosesAll => LoggedClosed(s);
    case LookupSettles(found) => LoggedClosed(s.(chain := s.chain.(looking := false)));
    case TimerFires(id, throwing) =>
      if s.loop.timers[id].Interval? {
        LoggedWritten(s, HeartbeatChunk, throwing);
      }
    case ChainSettles(body, throwing) =>
      var t := s.(chain := s.chain.(reading := None));
      if body.None? {
        LoggedClosed(t);
      } else {
        var frame := Frame(body.value, s.chain.reading.value);
        LoggedWritten(t.(trace := t.trace.(frames := t.trace.frames + [frame])), StatusChunk(frame), throwing);
      }
    case Unregisters(i) => LoggedUnregistered(s, i);
    case Registers => LoggedRegistered(s);
    case _ => CalmTurn(c, s, step);
  }

  lemma {:induction false} LoggedRegistered(s: Sys)
    requires Shape(s) && Logged(s)
    ensures Logged(Registered(s))
  {
    var t := Registered(s);
    forall i | 0 <= i < |t.trace.conns| ensures LogOf(t.trace.log, t.trace.conns[i], i in t.sinks) {
      if i < |s.trace.conns| {
        assert LogOf(s.trace.log, s.trace.conns[i], i in s.sinks);
      }
    }
  }

  lemma {:induction false} LoggedUnregistered(s: Sys, i: nat)
    requires i < |s.trace.conns| && Logged(s)
    ensures Logged(Unregistered(s, i))
  {
    var t := Unregistered(s, i);
    forall j | 0 <= j < |t.trace.conns| ensures LogOf(t.trace.log, t.trace.conns[j], j in t.sinks) {
      assert LogOf(s.trace.log, s.trace.conns[j], j in s.sinks);
    }
  }

  /** What the other handlers leave alone. */
  lemma {:induction false} CalmTurn(c: nat, s: Sys, step: Step)
    requires Enabled(s, step) && (step.Tick? || step.Hears? || step.ProbeSettles? || step.ChainStarts?)
    ensures var t := Handle(c, s, step);
            && t.sinks == s.sinks && t.trace.conns == s.trace.conns
            && t.trace.frames == s.trace.frames && t.trace.log == s.trace.log
  {
  }

  /** When the connection began is as it was, and it was not revived. */
  predicate SameConn(s: Sys, t: Sys, i: nat) {
    && i < |s.trace.conns| <= |t.trace.conns| <= |s.trace.conns| + 1
    && t.trace.conns[i].since == s.trace.conns[i].since
    && t.trace.conns[i].skipped == s.trace.conns[i].skipped && t.trace.conns[i].missed == s.trace.conns[i].missed
    && (i in t.sinks ==> i in s.sinks)
  }

  lemma {:induction false} ConnTouched(s: Sys, who: set<nat>, touch: Touch, i: nat)
    requires i < |s.trace.conns|
    ensures SameConn(s, s.(trace := s.trace.(conns := Touched(s.trace.conns, who, touch))), i)
  {
    TouchedAt(s.trace.conns, who, touch);
  }

  lemma {:induction false} ConnAfterTimer(s: Sys, id: nat, throwing: set<nat>, i: nat)
    requires Enabled(s, TimerFires(id, throwing)) && i < |s.trace.conns|
    ensures SameConn(s, if s.loop.timers[id].OneShot? then PendingFired(s, id) else HeartbeatFired(s, id, throwing), i)
  {
    ConnTouched(s, s.sinks - throwing, Write(HeartbeatChunk), i);
  }

  lemma {:induction false} ConnAfterRead(s: Sys, body: Option<Body>, throwing: set<nat>, i: nat)
    requires s.chain.reading.Some? && i < |s.trace.conns|
    ensures SameConn(s, ChainSettled(s, body, throwing), i)
  {
    ConnTouched(s, s.sinks, End, i);
    if body.Some? {
      ConnTouched(s, s.sinks - throwing, Write(StatusChunk(Frame(body.value, s.chain.reading.value))), i);
    }
  }

  /** No step rewrites when a connection began, nor revives a dropped one. */
  lemma {:induction false} ConnKept(c: nat, s: Sys, step: Step, i: nat)
    requires Shape(s) && Enabled(s, step) && i < |s.trace.conns|
    ensures SameConn(s, Apply(c, s, step), i)
  {
    match step
    case ClosesAll => ConnTouched(s, s.sinks, End, i);
    case LookupSettles(_) => ConnTouched(s, s.sinks, End, i);
    case TimerFires(id, throwing) => ConnAfterTimer(s, id, throwing, i);
    case ChainSettles(body, throwing) => ConnAfterRead(s, body, throwing, i);
    case Registers =>
    case Unregisters(_) =>
    case _ => CalmTurn(c, s, step);
  }

  /** At most one chunk is written to the connection, and only if it was a sink and
      stays one. */
  predicate WrittenOnce(s: Sys, t: Sys, i: nat)
    requires i < |s.trace.conns| <= |t.trace.conns|
  {
    var before, now := s.trace.conns[i].out, t.trace.conns[i].out;
    now == before || (now != [] && now == before + [now[|now| - 1]] && i in s.sinks && i in t.sinks)
  }

  lemma {:induction false} WriteToAllOnce(s: Sys, chunk: Chunk, throwing: set<nat>, i: nat)
    requires i < |s.trace.conns|
    ensures WrittenOnce(s, WrittenToAll(s, chunk, throwing), i)
  {
    TouchedAt(s.trace.conns, s.sinks - throwing, Write(chunk));
  }

  lemma {:induction false} ClosedWritesNothing(s: Sys, i: nat)
    requires i < |s.trace.conns|
    ensures ClosedAll(s).trace.conns[i].out == s.trace.conns[i].out
  {
    TouchedAt(s.trace.conns, s.sinks, End);
  }

  lemma {:induction false} ReadWritesOnce(s: Sys, body: Option<Body>, throwing: set<nat>, i: nat)
    requires i < |s.trace.conns| && s.chain.reading.Some?
    ensures WrittenOnce(s, ChainSettled(s, body, throwing), i)
  {
    var t := s.(chain := s.chain.(reading := None));
    if body.None? {
      ClosedWritesNothing(t, i);
    } else {
      var frame := Frame(body.value, s.chain.reading.value);
      WriteToAllOnce(t.(trace := t.trace.(frames := t.trace.frames + [frame])), StatusChunk(frame), throwing, i);
    }
  }

  /** So does every turn. */
  lemma {:induction false} OutKept(c: nat, s: Sys, step: Step, i: nat)
    requires Enabled(s, step) && i < |s.trace.conns|
    ensures |s.trace.conns| <= |Apply(c, s, step).trace.conns| && WrittenOnce(s, Apply(c, s, step), i)
  {
    match step
    case ClosesAll => ClosedWritesNothing(s, i);
    case LookupSettles(_) => ClosedWritesNothing(s.(chain := s.chain.(looking := false)), i);
    case TimerFires(_, throwing) => WriteToAllOnce(s, HeartbeatChunk, throwing, i);
    case ChainSettles(body, throwing) => ReadWritesOnce(s, body, throwing, i);
    case Registers =>
    case Unregisters(_) =>
    case _ => CalmTurn(c, s, step);
  }

  /** The sinks whose socket throws in this turn, if the turn writes. */
  function Throwing(step: Step): set<nat> {
    if step.TimerFires? || step.ChainSettles? then step.throwing else {}
  }

  predicate SameFlags(conn: Conn, other: Conn) {
    conn.ended == other.ended && conn.registered == other.registered
  }

  lemma {:induction false} DropAfterRead(s: Sys, body: Option<Body>, throwing: set<nat>, i: nat)
    requires i < |s.trace.conns| && i in s.sinks && s.chain.reading.Some?
    ensures var t := ChainSettled(s, body, throwing);
            if i in t.sinks then SameFlags(s.trace.conns[i], t.trace.conns[i])
            else t.trace.conns[i].ended || i in throwing
  {
    TouchedAt(s.trace.conns, s.sinks, End);
    if body.Some? {
      TouchedAt(s.trace.conns, s.sinks - throwing, Write(StatusChunk(Frame(body.value, s.chain.reading.value))));
    }
  }

  /** A sink goes because it was ended, because it threw or because its handler
      asked for it. */
  lemma {:induction false} WhyDropped(c: nat, s: Sys, step: Step, i: nat)
    requires Shape(s) && Enabled(s, step) && i < |s.trace.conns| && i in s.sinks
    ensures var t := Apply(c, s, step);
            && i < |t.trace.conns|
            && if i in t.sinks then SameFlags(s.trace.conns[i], t.trace.conns[i])
               else t.trace.conns[i].ended || i in Throwing(step) || step == Unregisters(i)
  {
    ConnKept(c, s, step, i);
    match step
    case ClosesAll => TouchedAt(s.trace.conns, s.sinks, End);
    case LookupSettles(_) => TouchedAt(s.trace.conns, s.sinks, End);
    case TimerFires(_, throwing) => TouchedAt(s.trace.conns, s.sinks - throwing, Write(HeartbeatChunk));
    case ChainSettles(body, throwing) => DropAfterRead(s, body, throwing, i);
    case _ =>
  }

  lemma {:induction false} ComingAfterRead(s: Sys, body: Option<Body>, throwing: set<nat>, i: nat, since: nat)
    requires ReadsInOrder(s) && s.chain.reading.Some?
    requires i < |s.trace.conns| && s.trace.conns[i].skipped <= |s.trace.frames|
    requires Coming(s, s.trace.conns[i], since) && i in ChainSettled(s, body, throwing).sinks
    ensures Coming(ChainSettled(s, body, throwing), s.trace.conns[i], since)
  {
  }

  lemma {:induction false} ComingAfterOthers(c: nat, s: Sys, step: Step, i: nat, since: nat)
    requires Enabled(s, step) && !step.ChainSettles? && since < s.loop.turn
    requires i < |s.trace.conns| && i in s.sinks && i in Handle(c, s, step).sinks && Coming(s, s.trace.conns[i], since)
    ensures Coming(Handle(c, s, step), s.trace.conns[i], since)
  {
  }

  /** A frame on its way to a sink stays on its way or goes out. */
  lemma {:induction false} ComingKept(c: nat, s: Sys, step: Step, i: nat, since: nat)
    requires Shape(s) && ReadsInOrder(s) && Enabled(s, step) && since < s.loop.turn
    requires i < |s.trace.conns| && s.trace.conns[i].skipped <= |s.trace.frames| && Coming(s, s.trace.conns[i], since)
    requires i in Apply(c, s, step).sinks
    ensures i < |Apply(c, s, step).trace.conns|
    ensures Coming(Apply(c, s, step), Apply(c, s, step).trace.conns[i], since)
  {
    ConnKept(c, s, step, i);
    if step.ChainSettles? {
      ComingAfterRead(s, step.body, step.throwing, i, since);
    } else {
      ComingAfterOthers(c, s, step, i, since);
    }
  }

  lemma {:induction false} PendingGone(c: nat, s: Sys, step: Step)
    requires Shape(s) && Enabled(s, step) && Apply(c, s, step).pending.None? && Apply(c, s, step).sinks != {}
    requires s.pending.Some? || step.Hears?
    ensures Apply(c, s, step).chain.queued > 0
  {
  }

  lemma {:induction false} ConnStaysFresh(c: nat, s: Sys, step: Step, i: nat)
    requires Shape(s) && ReadsInOrder(s) && Enabled(s, step) && i < |s.trace.conns| && FreshAt(s, i)
    requires s.trace.conns[i].skipped <= |s.trace.frames|
    requires s.trace.heard != [] ==> s.trace.heard[|s.trace.heard| - 1].turn < s.loop.turn
    ensures i < |Apply(c, s, step).trace.conns| && FreshAt(Apply(c, s, step), i)
  {
    ConnKept(c, s, step, i);
    HeardKept(c, s, step);
    var t := Apply(c, s, step);
    if i in t.sinks && t.pending.None? {
      if s.pending.Some? || step.Hears? {
        PendingGone(c, s, step);
      } else if s.trace.heard != [] && s.trace.conns[i].since < s.trace.heard[|s.trace.heard| - 1].turn {
        ComingKept(c, s, step, i, s.trace.heard[|s.trace.heard| - 1].turn);
      }
    }
  }

  lemma {:induction false} SkippedArePast(s: Sys, i: nat)
    requires Slices(s) && i < |s.trace.conns|
    ensures s.trace.conns[i].skipped <= |s.trace.frames|
  {
    assert SliceOf(s.trace.frames, s.trace.conns[i], i in s.sinks);
  }

  lemma {:induction false} FreshKept(c: nat, s: Sys, step: Step)
    requires Shape(s) && HeardTimes(s) && Slices(s) && ReadsInOrder(s) && Fresh(s) && Enabled(s, step)
    ensures Fresh(Apply(c, s, step))
  {
    forall i | 0 <= i < |Apply(c, s, step).trace.conns| ensures FreshAt(Apply(c, s, step), i) {
      if i < |s.trace.conns| {
        SkippedArePast(s, i);
        assert FreshAt(s, i);
        ConnStaysFresh(c, s, step, i);
      } else {
        NewConnIsFresh(c, s, step);
      }
    }
  }

  lemma {:induction false} NewConnIsFresh(c: nat, s: Sys, step: Step)
    requires Shape(s) && HeardTimes(s) && Enabled(s, step)
    requires |Apply(c, s, step).trace.conns| > |s.trace.conns|
    ensures FreshAt(Apply(c, s, step), |s.trace.conns|)
  {
  }

  lemma {:induction false} PastTurnsKept(c: nat, s: Sys, step: Step)
    requires Shape(s) && PastTurns(s) && Enabled(s, step)
    ensures PastTurns(Apply(c, s, step))
  {
    EmitsKept(c, s, step);
    var t := Apply(c, s, step);
    forall i | 0 <= i < |t.trace.conns| ensures t.trace.conns[i].since < t.loop.turn {
      if i < |s.trace.conns| {
        ConnKept(c, s, step, i);
      }
    }
  }

  /** At most one broadcast a turn is added, stamped with that turn. */
  lemma {:induction false} EmitsKept(c: nat, s: Sys, step: Step)
    requires Enabled(s, step)
    ensures var t := Apply(c, s, step);
            && t.loop.turn == s.loop.turn + 1
            && s.trace.emits <= t.trace.emits && |t.trace.emits| <= |s.trace.emits| + 1
            && (t.trace.emits != s.trace.emits ==>
                 t.trace.emits[|s.trace.emits|].turn == s.loop.turn && t.chain.queued > 0)
  {
  }

  lemma {:induction false} ConnStaysEmitFresh(c: nat, s: Sys, step: Step, i: nat)
    requires Shape(s) && ReadsInOrder(s) && Enabled(s, step) && i < |s.trace.conns| && EmitFreshAt(s, i)
    requires s.trace.conns[i].skipped <= |s.trace.frames|
    requires s.trace.emits != [] ==> s.trace.emits[|s.trace.emits| - 1].turn < s.loop.turn
    ensures i < |Apply(c, s, step).trace.conns| && EmitFreshAt(Apply(c, s, step), i)
  {
    ConnKept(c, s, step, i);
    EmitsKept(c, s, step);
    var t := Apply(c, s, step);
    if i in t.sinks && t.trace.emits == s.trace.emits && s.trace.emits != [] {
      if s.trace.conns[i].since < s.trace.emits[|s.trace.emits| - 1].turn {
        ComingKept(c, s, step, i, s.trace.emits[|s.trace.emits| - 1].turn);
      }
    }
  }

  lemma {:induction false} EmitFreshKeptAt(c: nat, s: Sys, step: Step, i: nat)
    requires Shape(s) && PastTurns(s) && Slices(s) && ReadsInOrder(s) && EmitFresh(s) && Enabled(s, step)
    requires i < |s.trace.conns|
    ensures i < |Apply(c, s, step).trace.conns| && EmitFreshAt(Apply(c, s, step), i)
  {
    SkippedArePast(s, i);
    assert EmitFreshAt(s, i);
    ConnStaysEmitFresh(c, s, step, i);
  }

  lemma {:induction false} EmitFreshKept(c: nat, s: Sys, step: Step)
    requires Shape(s) && PastTurns(s) && Slices(s) && ReadsInOrder(s) && EmitFresh(s) && Enabled(s, step)
    ensures EmitFresh(Apply(c, s, step))
  {
    forall i | 0 <= i < |Apply(c, s, step).trace.conns| ensures EmitFreshAt(Apply(c, s, step), i) {
      if i < |s.trace.conns| {
        EmitFreshKeptAt(c, s, step, i);
      } else {
        NewConnIsEmitFresh(c, s, step);
      }
    }
  }

  lemma {:induction false} NewConnIsEmitFresh(c: nat, s: Sys, step: Step)
    requires Shape(s) && PastTurns(s) && Enabled(s, step)
    requires |Apply(c, s, step).trace.conns| > |s.trace.conns|
    ensures EmitFreshAt(Apply(c, s, step), |s.trace.conns|)
  {
  }

  lemma {:induction false} NotLateKept(c: nat, s: Sys, step: Step)
    requires Shape(s) && EmitTimes(s) && NotLate(s) && Enabled(s, step) && OnTime(s, step)
    ensures NotLate(Apply(c, s, step))
  {
  }

  lemma {:induction false} BeatNearKept(c: nat, s: Sys, step: Step)
    requires Shape(s) && BeatNear(s) && Enabled(s, step)
    ensures BeatNear(Apply(c, s, step))
  {
  }

  lemma {:induction false} EmitAnswers(c: nat, s: Sys, t: Sys, h: Heard)
    requires |t.trace.emits| == |s.trace.emits| + 1
    requires t.trace.emits[|s.trace.emits|].at == s.loop.now && t.trace.emits[|s.trace.emits|].turn == s.loop.turn
    requires h.turn <= s.loop.turn && h.at <= s.loop.now <= h.at + c
    ensures Answered(t, c, h)
  {
    assert AnswersIn(t.trace.emits[|s.trace.emits|], h, c);
  }

  /** What becomes of a pending emit: it stays, it is made, or all streams close. */
  lemma {:induction false} PendingFate(c: nat, s: Sys, step: Step)
    requires Shape(s) && Enabled(s, step) && s.pending.Some?
    ensures var t := Handle(c, s, step);
            || (t.pending == s.pending && s.pending.value in t.loop.timers
                && t.loop.timers[s.pending.value] == s.loop.timers[s.pending.value])
            || (|t.trace.emits| == |s.trace.emits| + 1
                && t.trace.emits[|s.trace.emits|].at == s.loop.now
                && t.trace.emits[|s.trace.emits|].turn == s.loop.turn)
            || t.trace.closed == Some(s.loop.turn)
  {
  }

  /** A pending emit that fires or is superseded answers in time. */
  lemma {:induction false} PendingAnswers(c: nat, s: Sys, step: Step, h: Heard)
    requires Shape(s) && NotLate(s) && Enabled(s, step)
    requires s.pending.Some? && s.loop.timers[s.pending.value].due <= h.at + c
    requires h.at <= s.loop.now && h.turn < s.loop.turn
    ensures Answered(Apply(c, s, step), c, h)
  {
    PendingFate(c, s, step);
    var t := Apply(c, s, step);
    if |t.trace.emits| == |s.trace.emits| + 1 {
      EmitAnswers(c, s, t, h);
    }
  }

  /** What was answered stays answered. */
  lemma {:induction false} StaysAnswered(c: nat, s: Sys, step: Step, h: Heard)
    requires Shape(s) && NotLate(s) && Enabled(s, step) && OnTime(s, step)
    requires Answered(s, c, h) && h.at <= s.loop.now && h.turn < s.loop.turn
    ensures Answered(Apply(c, s, step), c, h)
  {
    if j :| 0 <= j < |s.trace.emits| && AnswersIn(s.trace.emits[j], h, c) {
      EmitsKept(c, s, step);
      assert Apply(c, s, step).trace.emits[j] == s.trace.emits[j];
    } else if s.pending.Some? && s.loop.timers[s.pending.value].due <= h.at + c {
      PendingAnswers(c, s, step, h);
    }
  }

  lemma {:induction false} NewEventAnswered(c: nat, s: Sys, e: Event)
    requires Shape(s) && EmitTimes(s) && PendingSpaced(s, c)
    ensures Answered(NextTurn(OnEvent(s, c, e)), c, Heard(e, s.loop.now, s.loop.turn))
  {
    var t := NextTurn(OnEvent(s, c, e));
    if |t.trace.emits| > |s.trace.emits| {
      assert AnswersIn(t.trace.emits[|s.trace.emits|], Heard(e, s.loop.now, s.loop.turn), c);
    }
  }

  lemma {:induction false} PromptKept(c: nat, s: Sys, step: Step)
    requires Shape(s) && EmitTimes(s) && HeardTimes(s) && PendingSpaced(s, c)
    requires NotLate(s) && Prompt(s, c) && Enabled(s, step) && OnTime(s, step)
    ensures Prompt(Apply(c, s, step), c)
  {
    HeardKept(c, s, step);
    if step.Hears? {
      NewEventAnswered(c, s, step.event);
    }
    forall k | 0 <= k < |s.trace.heard| ensures Answered(Apply(c, s, step), c, s.trace.heard[k]) {
      StaysAnswered(c, s, step, s.trace.heard[k]);
    }
  }

  lemma {:induction false} StepInv(c: nat, punctual: bool, s: Sys, step: Step)
    requires Inv(c, punctual, s) && Enabled(s, step) && (punctual ==> OnTime(s, step))
    ensures Inv(c, punctual, Apply(c, s, step))
  {
    forall p: Part | p.PNotLate? || p.PPrompt? ==> punctual ensures Holds(p, c, Apply(c, s, step)) {
      PartKept(p, c, punctual, s, step);
    }
  }

  lemma {:induction false} PartKept(p: Part, c: nat, punctual: bool, s: Sys, step: Step)
    requires Inv(c, punctual, s) && Enabled(s, step) && (punctual ==> OnTime(s, step))
    requires p.PNotLate? || p.PPrompt? ==> punctual
    ensures Holds(p, c, Apply(c, s, step))
  {
    assert Holds(PShape, c, s) && Holds(PEmitTimes, c, s) && Holds(PHeardTimes, c, s) && Holds(p, c, s);
    match p
    case PShape => ShapeKept(c, s, step);
    case PEmitTimes => EmitTimesKept(c, s, step);
    case PHeardTimes => HeardTimesKept(c, s, step);
    case PSpaced =>
      assert Holds(PPendingSpaced, c, s);
      SpacedKept(c, s, step);
    case PPendingSpaced => PendingSpacedKept(c, s, step);
    case PNet => NetKept(c, s, step);
    case PBeatNear => BeatNearKept(c, s, step);
    case PNotLate => NotLateKept(c, s, step);
    case PPrompt =>
      assert Holds(PPendingSpaced, c, s) && Holds(PNotLate, c, s);
      PromptKept(c, s, step);
    case _ => FramePartKept(p, c, punctual, s, step);
  }

  lemma {:induction false} FramePartKept(p: Part, c: nat, punctual: bool, s: Sys, step: Step)
    requires Inv(c, punctual, s) && Enabled(s, step)
    requires p.PReads? || p.PSlices? || p.PLogged? || p.PFresh? || p.PPastTurns? || p.PEmitFresh?
    ensures Holds(p, c, Apply(c, s, step))
  {
    assert Holds(PShape, c, s) && Holds(PHeardTimes, c, s) && Holds(p, c, s);
    assert Holds(PSlices, c, s) && Holds(PReads, c, s) && Holds(PPastTurns, c, s);
    match p
    case PReads => ReadsKept(c, s, step);
    case PSlices => SlicesKept(c, s, step);
    case PLogged => LoggedKept(c, s, step);
    case PFresh => FreshKept(c, s, step);
    case PPastTurns => PastTurnsKept(c, s, step);
    case PEmitFresh => EmitFreshKept(c, s, step);
  }

  ghost predicate ValidRun(c: nat, punctual: bool, s: Sys, steps: seq<Step>)
    decreases |steps|
  {
    steps != [] ==>
      && Enabled(s, steps[0]) && (punctual ==> OnTime(s, steps[0]))
      && ValidRun(c, punctual, Apply(c, s, steps[0]), steps[1..])
  }

  ghost function After(c: nat, punctual: bool, s: Sys, steps: seq<Step>): Sys
    requires ValidRun(c, punctual, s, steps)
    decreases |steps|
  {
    if steps == [] then s else After(c, punctual, Apply(c, s, steps[0]), steps[1..])
  }

  lemma {:induction false} RunInv(c: nat, punctual: bool, s: Sys, steps: seq<Step>)
    requires Inv(c, punctual, s) && ValidRun(c, punctual, s, steps)
    ensures Inv(c, punctual, After(c, punctual, s, steps))
    decreases |steps|
  {
    if steps != [] {
      StepInv(c, punctual, s, steps[0]);
      RunInv(c, punctual, Apply(c, s, steps[0]), steps[1..]);
    }
  }

  /** Some run from a new broadcaster leads to `s`; in a punctual one no timer is
      late. */
  ghost predicate Reachable(c: nat, punctual: bool, s: Sys) {
    exists s0, steps :: Init(s0) && ValidRun(c, punctual, s0, steps) && After(c, punctual, s0, steps) == s
  }

  lemma {:induction false} ReachableInv(c: nat, punctual: bool, s: Sys)
    requires Reachable(c, punctual, s)
    ensures Inv(c, punctual, s)
  {
    var s0, steps :| Init(s0) && ValidRun(c, punctual, s0, steps) && After(c, punctual, s0, steps) == s;
    RunInv(c, punctual, s0, steps);
  }

  lemma {:induction false} InitIsReachable(c: nat, punctual: bool, s: Sys)
    requires Init(s)
    ensures Reachable(c, punctual, s)
  {
    assert ValidRun(c, punctual, s, []) && After(c, punctual, s, []) == s;
  }

  lemma {:induction false} OneMoreStep(c: nat, punctual: bool, s: Sys, step: Step)
    requires Reachable(c, punctual, s) && Enabled(s, step) && (punctual ==> OnTime(s, step))
    ensures Reachable(c, punctual, Apply(c, s, step))
  {
    var s0, steps :| Init(s0) && ValidRun(c, punctual, s0, steps) && After(c, punctual, s0, steps) == s;
    RunAppend(c, punctual, s0, steps, step);
  }

  lemma {:induction false} RunAppend(c: nat, punctual: bool, s: Sys, steps: seq<Step>, step: Step)
    requires ValidRun(c, punctual, s, steps)
    requires Enabled(After(c, punctual, s, steps), step) && (punctual ==> OnTime(After(c, punctual, s, steps), step))
    ensures ValidRun(c, punctual, s, steps + [step])
    ensures After(c, punctual, s, steps + [step]) == Apply(c, After(c, punctual, s, steps), step)
    decreases |steps|
  {
    var more := steps + [step];
    if steps == [] {
      assert more[1..] == [];
    } else {
      RunAppend(c, punctual, Apply(c, s, steps[0]), steps[1..], step);
      assert more[1..] == steps[1..] + [step];
    }
  }

  // ---- what each turn does, told by the history alone ----

  /** All streams are closed. */
  predicate Closes(step: Step) {
    step.ClosesAll? || (step.ChainSettles? && step.body.None?) || (step.LookupSettles? && !step.found)
  }

  /** Nothing was broadcast in the last `c` ms. */
  predicate QuietFor(s: Sys, c: nat) {
    s.trace.emits == [] || s.trace.emits[|s.trace.emits| - 1].at + c <= s.loop.now
  }

  function OnePast(s: Sys, kind: Kind): seq<Broadcast> {
    s.trace.emits + [Broadcast(s.loop.now, s.loop.turn, kind)]
  }

  /** The coalescing rule. A terminal event and the first event after a quiet period
      are broadcast in their own turn; while an emit is pending an ordinary event
      joins it; otherwise one is made pending for the end of the interval that
      began with the last broadcast. */
  lemma {:induction false} GateIsExact(c: nat, punctual: bool, s: Sys, e: Event)
    requires Reachable(c, punctual, s)
    ensures var t := Apply(c, s, Hears(e));
            && (e == SaleSoldOut || e == SaleEnded ==>
                  t.trace.emits == OnePast(s, AtTerminal) && t.pending.None? && t.sawTerminal)
            && (e != SaleSoldOut && e != SaleEnded ==> t.sawTerminal == s.sawTerminal)
            && (e != SaleSoldOut && e != SaleEnded && s.pending.Some? ==>
                  t.trace.emits == s.trace.emits && t.pending == s.pending && t.loop.timers == s.loop.timers)
            && (e != SaleSoldOut && e != SaleEnded && s.pending.None? && QuietFor(s, c) ==>
                  t.trace.emits == OnePast(s, Leading) && t.pending.None?)
            && (e != SaleSoldOut && e != SaleEnded && s.pending.None? && !QuietFor(s, c) ==>
                  && t.trace.emits == s.trace.emits && t.pending.Some? && t.pending.value in t.loop.timers
                  && t.loop.timers[t.pending.value] == OneShot(s.trace.emits[|s.trace.emits| - 1].at + c))
    ensures Apply(c, s, Hears(e)).trace.heard == s.trace.heard + [Heard(e, s.loop.now, s.loop.turn)]
  {
    ReachableInv(c, punctual, s);
    assert Holds(PEmitTimes, c, s) && Holds(PShape, c, s);
    HeardKept(c, s, Hears(e));
  }

  /** A pending emit that comes due is made. */
  lemma {:induction false} TrailingEdge(c: nat, punctual: bool, s: Sys, throwing: set<nat>)
    requires Reachable(c, punctual, s) && s.pending.Some? && Enabled(s, TimerFires(s.pending.value, throwing))
    ensures var t := Apply(c, s, TimerFires(s.pending.value, throwing));
            t.trace.emits == OnePast(s, Trailing) && t.pending.None? && t.chain.queued == s.chain.queued + 1
  {
    ReachableInv(c, punctual, s);
    assert Holds(PShape, c, s);
  }

  /** One emit through the chain: lookup, read, write. */
  function Delivery(body: Body): seq<Step> {
    [ChainStarts, LookupSettles(true), ChainSettles(Some(body), {})]
  }

  /** Every sink is sent the frame of an emit whose turn it is, and nothing else. */
  lemma {:induction false} EmitReachesEverySink(c: nat, s: Sys, body: Body)
    requires s.chain.queued > 0 && !s.chain.looking && s.chain.reading.None? && s.sinks != {}
    ensures ValidRun(c, true, s, Delivery(body))
    ensures var t, frame := After(c, true, s, Delivery(body)), Frame(body, s.loop.turn + 1);
            && t.sinks == s.sinks && t.chain == Chain(s.chain.queued - 1, false, None)
            && t.trace.frames == s.trace.frames + [frame] && |t.trace.conns| == |s.trace.conns|
            && forall i {:trigger t.trace.conns[i]} | 0 <= i < |s.trace.conns| ::
                 t.trace.conns[i].out == s.trace.conns[i].out + if i in s.sinks then [StatusChunk(frame)] else []
  {
    var steps := Delivery(body);
    var s1 := Apply(c, s, steps[0]);
    var s2 := Apply(c, s1, steps[1]);
    var s3 := Apply(c, s2, steps[2]);
    TouchedAt(s.trace.conns, s.sinks - {}, Write(StatusChunk(Frame(body, s.loop.turn + 1))));
    assert s.sinks - {} == s.sinks;
    assert steps[1..] == [steps[1], steps[2]] && steps[1..][1..] == [steps[2]] && [steps[2]][1..] == [];
    assert ValidRun(c, true, s3, []) && After(c, true, s3, []) == s3;
    assert ValidRun(c, true, s2, [steps[2]]) && After(c, true, s2, [steps[2]]) == s3;
    assert ValidRun(c, true, s1, steps[1..]) && After(c, true, s1, steps[1..]) == s3;
  }

  /** Fail closed: when the truth cannot be read, or on stop, every stream is ended,
      nothing more is written, and no timer is left; a read that failed is over. */
  lemma {:induction false} FailureClosesEveryStream(c: nat, punctual: bool, s: Sys, step: Step)
    requires Reachable(c, punctual, s) && Enabled(s, step) && Closes(step)
    ensures var t := Apply(c, s, step);
            && t.sinks == {} && t.loop.timers == map[] && t.pending.None? && t.heartbeat.None?
            && t.trace.closed == Some(s.loop.turn) && |t.trace.conns| == |s.trace.conns|
            && (forall i {:trigger t.trace.conns[i]} | 0 <= i < |s.trace.conns| ::
                  && t.trace.conns[i].out == s.trace.conns[i].out
                  && t.trace.conns[i].ended == (i in s.sinks || s.trace.conns[i].ended))
            && t.chain.queued == s.chain.queued && (!step.ClosesAll? ==> t.chain == Chain(s.chain.queued, false, None))
  {
    ReachableInv(c, punctual, s);
    assert Holds(PShape, c, s) && Holds(PReads, c, s);
    TouchedAt(s.trace.conns, s.sinks, End);
  }

  /** A sink that throws is dropped, the others get the chunk. */
  lemma {:induction false} ThrowingSinksAreDropped(c: nat, s: Sys, step: Step)
    requires Enabled(s, step)
    requires (step.TimerFires? && s.loop.timers[step.id].Interval?) || (step.ChainSettles? && step.body.Some?)
    ensures var t := Apply(c, s, step);
            && t.sinks == s.sinks - step.throwing && |t.trace.conns| == |s.trace.conns|
            && forall i {:trigger t.trace.conns[i]} | 0 <= i < |s.trace.conns| ::
                 |t.trace.conns[i].out| == |s.trace.conns[i].out| + if i in s.sinks && i !in step.throwing then 1 else 0
  {
    if step.TimerFires? {
      TouchedAt(s.trace.conns, s.sinks - step.throwing, Write(HeartbeatChunk));
    } else {
      var frame := Frame(step.body.value, s.chain.reading.value);
      TouchedAt(s.trace.conns, s.sinks - step.throwing, Write(StatusChunk(frame)));
    }
  }

  /** A heartbeat goes to every sink that does not throw, is followed by one probe if
      somebody is left and nothing terminal was seen, and by the next heartbeat 25 s
      later as long as somebody is left. */
  lemma {:induction false} HeartbeatIsExact(c: nat, punctual: bool, s: Sys, id: nat, throwing: set<nat>)
    requires Reachable(c, punctual, s) && Enabled(s, TimerFires(id, throwing)) && s.loop.timers[id].Interval?
    ensures var t := Apply(c, s, TimerFires(id, throwing));
            && t.sinks == s.sinks - throwing && |t.trace.conns| == |s.trace.conns|
            && (forall i {:trigger t.trace.conns[i]} | 0 <= i < |s.trace.conns| ::
                  t.trace.conns[i].out == s.trace.conns[i].out + if i in t.sinks then [HeartbeatChunk] else [])
            && t.probes == s.probes + (if t.sinks != {} && !s.sawTerminal then 1 else 0)
            && (t.sinks != {} ==> t.heartbeat == Some(id) && id in t.loop.timers
                                  && t.loop.timers[id] == Interval(s.loop.now + 25_000))
            && (t.sinks == {} ==> t.heartbeat.None? && id !in t.loop.timers)
            && t.trace.emits == s.trace.emits && t.chain == s.chain && t.sawTerminal == s.sawTerminal
  {
    ReachableInv(c, punctual, s);
    assert Holds(PShape, c, s);
    TouchedAt(s.trace.conns, s.sinks - throwing, Write(HeartbeatChunk));
  }

  /** What the safety net makes of a probe while somebody listens and nothing terminal
      was seen: sold out is broadcast, ended ends the probing, and anything else, a
      failure too, leaves the net armed. Otherwise a late answer is ignored. */
  lemma {:induction false} ProbeIsExact(c: nat, s: Sys, status: Option<Status>)
    requires Enabled(s, ProbeSettles(status))
    ensures var t := Apply(c, s, ProbeSettles(status));
            var live := !s.sawTerminal && s.sinks != {};
            && t.trace.emits == (if live && status == Some(SoldOut) then OnePast(s, SafetyNet) else s.trace.emits)
            && (t.sawTerminal <==> s.sawTerminal || (live && status in {Some(SoldOut), Some(Ended)}))
            && t.probes == s.probes - 1
  {
  }

  /** A registration adds one sink that has got nothing yet; an unregistration takes
      exactly that sink away, once. */
  lemma {:induction false} RegistrationIsExact(c: nat, s: Sys, i: nat)
    requires Shape(s)
    ensures var t := Apply(c, s, Registers);
            && t.sinks == s.sinks + {|s.trace.conns|} && |t.trace.conns| == |s.trace.conns| + 1
            && t.trace.conns[..|s.trace.conns|] == s.trace.conns
            && t.trace.conns[|s.trace.conns|].out == []
            && t.trace.conns[|s.trace.conns|].registered && !t.trace.conns[|s.trace.conns|].ended
            && t.heartbeat.Some?
            && (s.sinks == {} ==> t.loop.timers[t.heartbeat.value] == Interval(s.loop.now + 25_000))
    ensures i < |s.trace.conns| ==>
              var t := Apply(c, s, Unregisters(i));
              && t.sinks == (if s.trace.conns[i].registered then s.sinks - {i} else s.sinks)
              && |t.trace.conns| == |s.trace.conns| && !t.trace.conns[i].registered
              && forall j {:trigger t.trace.conns[j]} | 0 <= j < |s.trace.conns| ::
                   t.trace.conns[j].out == s.trace.conns[j].out
  {
    ShapeRegistered(s);
  }

  // ---- what every run guarantees ----

  /** An ordinary emit comes at least the interval after every earlier emit but
      the safety net's. */
  lemma {:induction false} CoalescingBound(c: nat, punctual: bool, s: Sys, i: nat, j: nat)
    requires Reachable(c, punctual, s) && i < j < |s.trace.emits|
    requires s.trace.emits[j].kind in {Leading, Trailing} && s.trace.emits[i].kind != SafetyNet
    ensures s.trace.emits[i].at + c <= s.trace.emits[j].at
  {
    ReachableInv(c, punctual, s);
    assert Holds(PSpaced, c, s);
  }

  /** The safety net emits at most once in the whole life, never after a terminal
      event, and overlapping probes do not change that. */
  lemma {:induction false} SafetyNetFiresOnce(c: nat, punctual: bool, s: Sys, i: nat, j: nat)
    requires Reachable(c, punctual, s) && i < j < |s.trace.emits|
    requires s.trace.emits[i].kind.SafetyNet? || s.trace.emits[i].kind.AtTerminal?
    ensures !s.trace.emits[j].kind.SafetyNet? && s.sawTerminal
  {
    ReachableInv(c, punctual, s);
    assert Holds(PNet, c, s);
  }

  /** No timer leaks: at most one pending emit, and one heartbeat exactly while
      somebody listens. */
  lemma {:induction false} TimersAreThoseHeld(c: nat, punctual: bool, s: Sys)
    requires Reachable(c, punctual, s)
    ensures forall a, b {:trigger s.loop.timers[a], s.loop.timers[b]} ::
              a in s.loop.timers && b in s.loop.timers && (s.loop.timers[a].OneShot? <==> s.loop.timers[b].OneShot?)
              ==> a == b
    ensures (exists id {:trigger s.loop.timers[id]} :: id in s.loop.timers && s.loop.timers[id].Interval?)
            <==> s.sinks != {}
  {
    ReachableInv(c, punctual, s);
    assert Holds(PShape, c, s);
  }

  /** A terminal event leaves no emit pending and has one in the chain; so does
      `closeAll` leave no timer at all. */
  lemma {:induction false} TerminalSupersedes(c: nat, punctual: bool, s: Sys, e: Event)
    requires Reachable(c, punctual, s) && e.IsTerminal()
    ensures var t := Apply(c, s, Hears(e));
            && (forall id {:trigger t.loop.timers[id]} | id in t.loop.timers :: t.loop.timers[id].Interval?)
            && t.chain.queued == s.chain.queued + 1
    ensures Apply(c, s, ClosesAll).loop.timers == map[]
  {
    ReachableInv(c, punctual, s);
    assert Holds(PShape, c, s);
    ShapeAfterEvent(c, s, e);
    ShapeKept(c, s, ClosesAll);
  }

  /** With timers that are not late, an event at time t is answered by an emit in
      [t, t + interval] unless all streams were closed after it. */
  lemma {:induction false} NoEventLost(c: nat, s: Sys, k: nat)
    requires Reachable(c, true, s) && k < |s.trace.heard|
    requires s.trace.closed.Some? ==> s.trace.closed.value < s.trace.heard[k].turn
    requires s.pending.None? || s.loop.now > s.trace.heard[k].at + c
    ensures exists j {:trigger s.trace.emits[j]} ::
              0 <= j < |s.trace.emits| && AnswersIn(s.trace.emits[j], s.trace.heard[k], c)
  {
    ReachableInv(c, true, s);
    assert Holds(PPrompt, c, s) && Holds(PNotLate, c, s);
    assert Answered(s, c, s.trace.heard[k]);
  }

  /** Nothing pending, queued or being read. */
  predicate Quiet(s: Sys) {
    s.pending.None? && s.chain == IDLE
  }

  /** After quiescence every surviving sink that was there for the last event has
      a last status frame whose read began after that event. */
  lemma {:induction false} LastFrameIsFresh(c: nat, punctual: bool, s: Sys, i: nat)
    requires Reachable(c, punctual, s) && Quiet(s) && s.trace.heard != []
    requires i < |s.trace.conns| && i in s.sinks && s.trace.conns[i].since < s.trace.heard[|s.trace.heard| - 1].turn
    ensures var got := Statuses(s.trace.conns[i].out);
            got != [] && got[|got| - 1].readFrom > s.trace.heard[|s.trace.heard| - 1].turn
  {
    ReachableInv(c, punctual, s);
    assert Holds(PFresh, c, s) && Holds(PSlices, c, s);
    assert FreshAt(s, i) && SliceOf(s.trace.frames, s.trace.conns[i], true);
  }

  ghost predicate Leads(c: nat, s: Sys, t: Sys) {
    exists steps :: ValidRun(c, false, s, steps) && After(c, false, s, steps) == t
  }

  lemma {:induction false} LeadsOn(c: nat, s: Sys, t: Sys, step: Step)
    requires Leads(c, s, t) && Enabled(t, step)
    ensures Leads(c, s, Apply(c, t, step))
  {
    var steps :| ValidRun(c, false, s, steps) && After(c, false, s, steps) == t;
    RunAppend(c, false, s, steps, step);
  }

  lemma {:induction false} PendingIsMade(c: nat, s: Sys, t: Sys) returns (u: Sys)
    requires Leads(c, s, t) && Shape(t) && t.pending.Some?
    ensures Leads(c, s, u) && Shape(u) && u.sinks == t.sinks && u.pending.None?
    ensures u.chain == t.chain.(queued := t.chain.queued + 1) && u.trace.heard == t.trace.heard
  {
    var wait := t.loop.timers[t.pending.value].due - t.loop.now;
    var later := Tick(if wait > 0 then wait else 0);
    var v := Apply(c, t, later);
    LeadsOn(c, s, t, later);
    LeadsOn(c, s, v, TimerFires(t.pending.value, {}));
    u := Apply(c, v, TimerFires(t.pending.value, {}));
    ShapeKept(c, t, later);
    ShapeKept(c, v, TimerFires(t.pending.value, {}));
  }

  /** One turn further towards rest. */
  function TowardsRest(t: Sys, body: Body): Step {
    if t.chain.looking then LookupSettles(true)
    else if t.chain.reading.Some? then ChainSettles(Some(body), {})
    else ChainStarts
  }

  lemma {:induction false} ChainRuns(c: nat, s: Sys, t: Sys, body: Body) returns (u: Sys)
    requires Leads(c, s, t) && Shape(t) && t.pending.None? && !(t.chain.looking && t.chain.reading.Some?)
    ensures Leads(c, s, u) && Quiet(u) && u.sinks == t.sinks && u.trace.heard == t.trace.heard
    decreases t.chain.queued, if t.chain.looking then 2 else if t.chain.reading.Some? then 1 else 0
  {
    if t.chain == IDLE {
      return t;
    }
    var step := TowardsRest(t, body);
    LeadsOn(c, s, t, step);
    ShapeKept(c, t, step);
    TowardsRestKeepsSinks(c, t, body);
    u := ChainRuns(c, s, Apply(c, t, step), body);
  }

  lemma {:induction false} TowardsRestKeepsSinks(c: nat, t: Sys, body: Body)
    requires t.pending.None? && t.chain != IDLE && !(t.chain.looking && t.chain.reading.Some?)
    requires t.sinks == {} ==> t.heartbeat.None?
    ensures Enabled(t, TowardsRest(t, body))
    ensures var v := Apply(c, t, TowardsRest(t, body));
            && v.sinks == t.sinks && v.trace.heard == t.trace.heard && v.pending.None?
            && !(v.chain.looking && v.chain.reading.Some?)
  {
  }

  /** From every reachable state the broadcaster can come to rest without losing a
      sink, so what holds at rest is no empty promise: each sink there now, if an
      event was heard since it came, then has a frame read after the last event. */
  lemma {:induction false} CanComeToRest(c: nat, s: Sys, body: Body)
    requires Reachable(c, false, s)
    ensures exists t :: Leads(c, s, t) && Quiet(t) && t.sinks == s.sinks && t.trace.heard == s.trace.heard
  {
    ReachableInv(c, false, s);
    assert Holds(PShape, c, s) && Holds(PReads, c, s);
    assert ValidRun(c, false, s, []) && After(c, false, s, []) == s;
    var t := s;
    if t.pending.Some? {
      t := PendingIsMade(c, s, t);
    }
    t := ChainRuns(c, s, t, body);
  }

  /** Two sinks registered throughout got the same status frames, those since the
      later of them registered, in the order their reads began. */
  lemma {:induction false} SinksSeeTheSameFrames(c: nat, punctual: bool, s: Sys, i: nat, j: nat)
    requires Reachable(c, punctual, s) && i in s.sinks && j in s.sinks
    ensures i < |s.trace.conns| && j < |s.trace.conns|
    ensures var mine, theirs := Statuses(s.trace.conns[i].out), Statuses(s.trace.conns[j].out);
            && |mine| - |theirs| == s.trace.conns[j].skipped - s.trace.conns[i].skipped
            && (|mine| >= |theirs| ==> theirs == mine[|mine| - |theirs|..])
    ensures forall a, b {:trigger Statuses(s.trace.conns[i].out)[a], Statuses(s.trace.conns[i].out)[b]} ::
              0 <= a < b < |Statuses(s.trace.conns[i].out)| ==>
                Statuses(s.trace.conns[i].out)[a].readFrom < Statuses(s.trace.conns[i].out)[b].readFrom
  {
    ReachableInv(c, punctual, s);
    assert Holds(PShape, c, s) && Holds(PSlices, c, s) && Holds(PReads, c, s);
    assert SliceOf(s.trace.frames, s.trace.conns[i], true) && SliceOf(s.trace.frames, s.trace.conns[j], true);
  }

  /** A dropped connection is not written to again. */
  lemma {:induction false} DroppedStaysDropped(c: nat, punctual: bool, s: Sys, step: Step, i: nat)
    requires Reachable(c, punctual, s) && Enabled(s, step) && i < |s.trace.conns| && i !in s.sinks
    ensures i !in Apply(c, s, step).sinks && Apply(c, s, step).trace.conns[i].out == s.trace.conns[i].out
  {
    ReachableInv(c, punctual, s);
    assert Holds(PShape, c, s);
    ConnKept(c, s, step, i);
    OutKept(c, s, step, i);
  }

  /** At rest every surviving sink that was there for the last emit, the safety
      net's included, has a last status frame whose read began after that emit. */
  lemma {:induction false} LastEmitIsDelivered(c: nat, punctual: bool, s: Sys, i: nat)
    requires Reachable(c, punctual, s) && s.chain == IDLE && s.trace.emits != []
    requires i < |s.trace.conns| && i in s.sinks && s.trace.conns[i].since < s.trace.emits[|s.trace.emits| - 1].turn
    ensures var got := Statuses(s.trace.conns[i].out);
            got != [] && got[|got| - 1].readFrom > s.trace.emits[|s.trace.emits| - 1].turn
  {
    ReachableInv(c, punctual, s);
    assert Holds(PEmitFresh, c, s) && Holds(PSlices, c, s);
    assert EmitFreshAt(s, i) && SliceOf(s.trace.frames, s.trace.conns[i], true);
  }

  /** Once a sink is dropped no run brings it back. */
  lemma {:induction false} SurvivorWasThere(c: nat, punctual: bool, s: Sys, steps: seq<Step>, i: nat)
    requires Inv(c, punctual, s) && ValidRun(c, punctual, s, steps) && i < |s.trace.conns|
    requires i in After(c, punctual, s, steps).sinks
    ensures i in s.sinks && i < |After(c, punctual, s, steps).trace.conns|
    ensures After(c, punctual, s, steps).trace.conns[i].since == s.trace.conns[i].since
    decreases |steps|
  {
    if steps != [] {
      assert Holds(PShape, c, s);
      ConnKept(c, s, steps[0], i);
      StepInv(c, punctual, s, steps[0]);
      SurvivorWasThere(c, punctual, Apply(c, s, steps[0]), steps[1..], i);
    }
  }

  /** The last broadcast was asked for in turn `since` or later. */
  ghost predicate EmittedSince(s: Sys, since: nat) {
    s.trace.emits != [] && s.trace.emits[|s.trace.emits| - 1].turn >= since
  }

  lemma {:induction false} TerminalStepEmits(c: nat, s: Sys, step: Step, since: nat)
    requires Enabled(s, step) && since <= s.loop.turn && step != ProbeSettles(Some(Ended))
    requires s.sawTerminal ==> EmittedSince(s, since)
    ensures Apply(c, s, step).sawTerminal ==> EmittedSince(Apply(c, s, step), since)
    ensures s.sinks != {} && step == ProbeSettles(Some(SoldOut)) ==> Apply(c, s, step).sawTerminal
  {
  }

  lemma {:induction false} TerminalRunEmits(c: nat, punctual: bool, s: Sys, steps: seq<Step>, since: nat)
    requires ValidRun(c, punctual, s, steps) && since <= s.loop.turn && ProbeSettles(Some(Ended)) !in steps
    requires s.sawTerminal ==> EmittedSince(s, since)
    ensures After(c, punctual, s, steps).sawTerminal ==> EmittedSince(After(c, punctual, s, steps), since)
    decreases |steps|
  {
    if steps != [] {
      EmitsKept(c, s, steps[0]);
      TerminalStepEmits(c, s, steps[0], since);
      TerminalRunEmits(c, punctual, Apply(c, s, steps[0]), steps[1..], since);
    }
  }

  lemma {:induction false} EmittedStays(c: nat, punctual: bool, s: Sys, steps: seq<Step>, since: nat)
    requires ValidRun(c, punctual, s, steps) && EmittedSince(s, since) && since <= s.loop.turn
    ensures EmittedSince(After(c, punctual, s, steps), since)
    decreases |steps|
  {
    if steps != [] {
      EmitsKept(c, s, steps[0]);
      EmittedStays(c, punctual, Apply(c, s, steps[0]), steps[1..], since);
    }
  }

  lemma {:induction false} SoldOutProbeEmits(
      c: nat, punctual: bool, s: Sys, steps: seq<Step>, k: nat, i: nat, since: nat)
    requires Inv(c, punctual, s) && ValidRun(c, punctual, s, steps) && since <= s.loop.turn
    requires s.sawTerminal ==> EmittedSince(s, since)
    requires k < |steps| && steps[k] == ProbeSettles(Some(SoldOut)) && ProbeSettles(Some(Ended)) !in steps[..k]
    requires i < |s.trace.conns| && i in After(c, punctual, s, steps).sinks
    ensures EmittedSince(After(c, punctual, s, steps), since)
    decreases |steps|
  {
    var t := Apply(c, s, steps[0]);
    SurvivorWasThere(c, punctual, s, steps, i);
    assert k > 0 ==> steps[0] in steps[..k];
    TerminalStepEmits(c, s, steps[0], since);
    EmitsKept(c, s, steps[0]);
    if k == 0 {
      EmittedStays(c, punctual, t, steps[1..], since);
    } else {
      assert Holds(PShape, c, s);
      ConnKept(c, s, steps[0], i);
      StepInv(c, punctual, s, steps[0]);
      assert steps[1..][..k - 1] == steps[..k][1..];
      SoldOutProbeEmits(c, punctual, t, steps[1..], k - 1, i, since);
    }
  }

  /** What was emitted since then has reached every sink that survived. */
  lemma {:induction false} EmittedIsDelivered(c: nat, punctual: bool, s: Sys, steps: seq<Step>, i: nat)
    requires Reachable(c, punctual, s) && ValidRun(c, punctual, s, steps) && i < |s.trace.conns|
    requires var u := After(c, punctual, s, steps); i in u.sinks && u.chain == IDLE && EmittedSince(u, s.loop.turn)
    ensures var u := After(c, punctual, s, steps);
            && i < |u.trace.conns|
            && var got := Statuses(u.trace.conns[i].out); got != [] && got[|got| - 1].readFrom > s.loop.turn
  {
    ReachableInv(c, punctual, s);
    assert Holds(PPastTurns, c, s);
    SurvivorWasThere(c, punctual, s, steps, i);
    RunStaysReachable(c, punctual, s, steps);
    LastEmitIsDelivered(c, punctual, After(c, punctual, s, steps), i);
  }

  /** The lost sold-out signal is healed, end to end: with nothing terminal seen,
      one probe that reads sold out before any reads ended is enough, whatever
      other probes fail, lag or read. Once the chain is at rest, each sink that
      survived has a last status frame read later, though nobody ever published
      the event. */
  lemma {:induction false} SafetyNetHeals(c: nat, punctual: bool, s: Sys, steps: seq<Step>, k: nat, i: nat)
    requires Reachable(c, punctual, s) && !s.sawTerminal && i < |s.trace.conns|
    requires ValidRun(c, punctual, s, steps)
    requires var u := After(c, punctual, s, steps); i in u.sinks && u.chain == IDLE
    requires k < |steps| && steps[k] == ProbeSettles(Some(SoldOut)) && ProbeSettles(Some(Ended)) !in steps[..k]
    ensures var u := After(c, punctual, s, steps);
            && i < |u.trace.conns|
            && var got := Statuses(u.trace.conns[i].out); got != [] && got[|got| - 1].readFrom > s.loop.turn
  {
    ReachableInv(c, punctual, s);
    SoldOutProbeEmits(c, punctual, s, steps, k, i, s.loop.turn);
    EmittedIsDelivered(c, punctual, s, steps, i);
  }

  // ---- how long a sink waits for the next heartbeat ----

  /** The probes a run settles. */
  function Settled(steps: seq<Step>): nat {
    if steps == [] then 0 else (if steps[0].ProbeSettles? then 1 else 0) + Settled(steps[1..])
  }

  /** A chunk was written to the connection since, and a probe went out unless a
      terminal event was seen; `settled` of them came back. */
  ghost predicate Beat(s: Sys, t: Sys, settled: nat, i: nat)
    requires i < |s.trace.conns| && i < |t.trace.conns|
  {
    |t.trace.conns[i].out| > |s.trace.conns[i].out| && (t.sawTerminal || t.probes + settled > s.probes)
  }

  ghost predicate BeatDue(s: Sys, latest: int) {
    s.heartbeat.Some? && s.heartbeat.value in s.loop.timers && s.loop.timers[s.heartbeat.value].due <= latest
  }

  lemma {:induction false} FiringBeats(c: nat, s: Sys, id: nat, throwing: set<nat>, i: nat)
    requires Shape(s) && Enabled(s, TimerFires(id, throwing)) && s.loop.timers[id].Interval?
    requires i < |s.trace.conns| && i in Apply(c, s, TimerFires(id, throwing)).sinks
    ensures i < |Apply(c, s, TimerFires(id, throwing)).trace.conns|
    ensures Beat(s, Apply(c, s, TimerFires(id, throwing)), 0, i)
  {
    TouchedAt(s.trace.conns, s.sinks - throwing, Write(HeartbeatChunk));
  }

  lemma {:induction false} BeatStaysDue(c: nat, s: Sys, step: Step, i: nat, latest: int)
    requires Shape(s) && Enabled(s, step) && BeatDue(s, latest)
    requires i in s.sinks && i in Apply(c, s, step).sinks
    requires step.TimerFires? ==> s.loop.timers[step.id].OneShot?
    ensures BeatDue(Apply(c, s, step), latest)
  {
  }

  lemma {:induction false} ProbesCounted(c: nat, s: Sys, step: Step)
    requires Enabled(s, step)
    ensures Apply(c, s, step).probes + Settled([step]) >= s.probes
    ensures s.sawTerminal ==> Apply(c, s, step).sawTerminal
  {
  }

  /** Nothing a run does afterwards takes a beat back. */
  lemma {:induction false} BeatStays(c: nat, punctual: bool, s0: Sys, s: Sys, settled: nat, steps: seq<Step>, i: nat)
    requires Inv(c, punctual, s) && ValidRun(c, punctual, s, steps) && i < |s0.trace.conns| && i < |s.trace.conns|
    requires Beat(s0, s, settled, i)
    ensures i < |After(c, punctual, s, steps).trace.conns|
    ensures Beat(s0, After(c, punctual, s, steps), settled + Settled(steps), i)
    decreases |steps|
  {
    if steps != [] {
      assert Holds(PShape, c, s);
      OutKept(c, s, steps[0], i);
      ProbesCounted(c, s, steps[0]);
      StepInv(c, punctual, s, steps[0]);
      BeatStays(c, punctual, s0, Apply(c, s, steps[0]), settled + Settled([steps[0]]), steps[1..], i);
    }
  }

  lemma {:induction false} BeatRun(c: nat, s0: Sys, s: Sys, settled: nat, steps: seq<Step>, i: nat, latest: int)
    requires Inv(c, true, s) && ValidRun(c, true, s, steps) && i < |s0.trace.conns| && i < |s.trace.conns|
    requires |s.trace.conns[i].out| >= |s0.trace.conns[i].out| && s.probes + settled >= s0.probes
    requires BeatDue(s, latest) && i in After(c, true, s, steps).sinks && After(c, true, s, steps).loop.now > latest
    ensures i < |After(c, true, s, steps).trace.conns|
    ensures Beat(s0, After(c, true, s, steps), settled + Settled(steps), i)
    decreases |steps|
  {
    assert Holds(PShape, c, s) && Holds(PNotLate, c, s);
    if steps != [] {
      var t := Apply(c, s, steps[0]);
      SurvivorWasThere(c, true, s, steps, i);
      OutKept(c, s, steps[0], i);
      ProbesCounted(c, s, steps[0]);
      StepInv(c, true, s, steps[0]);
      SurvivorWasThere(c, true, t, steps[1..], i);
      if steps[0].TimerFires? && s.loop.timers[steps[0].id].Interval? {
        FiringBeats(c, s, steps[0].id, steps[0].throwing, i);
        BeatStays(c, true, s0, t, settled + Settled([steps[0]]), steps[1..], i);
      } else {
        BeatStaysDue(c, s, steps[0], i, latest);
        BeatRun(c, s0, t, settled + Settled([steps[0]]), steps[1..], i, latest);
      }
    }
  }

  /** With punctual timers a surviving sink is never left without a chunk for more
      than the heartbeat interval of 25 s, where a client's watchdog waits 40 s; nor
      is the stock left without a probe that long while nothing terminal was seen. */
  lemma {:induction false} HeartbeatIsSteady(c: nat, s: Sys, steps: seq<Step>, i: nat)
    requires Reachable(c, true, s) && ValidRun(c, true, s, steps) && i < |s.trace.conns|
    requires var u := After(c, true, s, steps); i in u.sinks && u.loop.now > s.loop.now + HEARTBEAT_MS
    ensures var u := After(c, true, s, steps);
            && i < |u.trace.conns| && |u.trace.conns[i].out| > |s.trace.conns[i].out|
            && (u.sawTerminal || u.probes + Settled(steps) > s.probes)
  {
    ReachableInv(c, true, s);
    assert Holds(PShape, c, s) && Holds(PBeatNear, c, s);
    SurvivorWasThere(c, true, s, steps, i);
    BeatRun(c, s, s, 0, steps, i, s.loop.now + HEARTBEAT_MS);
  }

  lemma {:induction false} SomeProbeSettled(steps: seq<Step>)
    requires Settled(steps) > 0
    ensures exists k :: 0 <= k < |steps| && steps[k].ProbeSettles?
  {
    if !steps[0].ProbeSettles? {
      SomeProbeSettled(steps[1..]);
      var k :| 0 <= k < |steps[1..]| && steps[1..][k].ProbeSettles?;
      assert steps[k + 1].ProbeSettles?;
    }
  }

  /** So a sale that has sold out is told within one heartbeat interval and the
      reads that follow it: past the interval, with every probe back and reading
      sold out, each surviving sink has a later frame. */
  lemma {:induction false} HealedWithinOneHeartbeat(c: nat, s: Sys, steps: seq<Step>, i: nat)
    requires Reachable(c, true, s) && !s.sawTerminal && ValidRun(c, true, s, steps) && i < |s.trace.conns|
    requires var u := After(c, true, s, steps);
             i in u.sinks && u.loop.now > s.loop.now + HEARTBEAT_MS && u.probes == 0 && u.chain == IDLE
    requires forall k | 0 <= k < |steps| && steps[k].ProbeSettles? :: steps[k].status == Some(SoldOut)
    ensures var u := After(c, true, s, steps);
            && i < |u.trace.conns|
            && var got := Statuses(u.trace.conns[i].out); got != [] && got[|got| - 1].readFrom > s.loop.turn
  {
    HeartbeatIsSteady(c, s, steps, i);
    if After(c, true, s, steps).sawTerminal {
      TerminalRunEmits(c, true, s, steps, s.loop.turn);
      EmittedIsDelivered(c, true, s, steps, i);
    } else {
      SomeProbeSettled(steps);
      var k :| 0 <= k < |steps| && steps[k].ProbeSettles?;
      SafetyNetHeals(c, true, s, steps, k, i);
    }
  }

  lemma {:induction false} RunStaysReachable(c: nat, punctual: bool, s: Sys, steps: seq<Step>)
    requires Reachable(c, punctual, s) && ValidRun(c, punctual, s, steps)
    ensures Reachable(c, punctual, After(c, punctual, s, steps))
    decreases |steps|
  {
    if steps != [] {
      OneMoreStep(c, punctual, s, steps[0]);
      RunStaysReachable(c, punctual, Apply(c, s, steps[0]), steps[1..]);
    }
  }

  // ---- how final a terminal frame is ----

  /** A broadcast beyond the first `base` was made or is pending. */
  predicate Asked(s: Sys, base: nat) {
    |s.trace.emits| > base || s.pending.Some?
  }

  lemma {:induction false} StaysAsked(c: nat, s: Sys, step: Step, base: nat)
    requires Enabled(s, step) && !Closes(step) && Asked(s, base) && |s.trace.emits| >= base
    ensures Asked(Apply(c, s, step), base)
  {
  }

  lemma {:induction false} AsksIffHears(c: nat, s: Sys, step: Step)
    requires Shape(s) && s.sawTerminal && s.pending.None? && Enabled(s, step)
    ensures Asked(Apply(c, s, step), |s.trace.emits|) <==> step.Hears?
    ensures Apply(c, s, step).sawTerminal
  {
  }

  lemma {:induction false} RunStaysAsked(c: nat, s: Sys, steps: seq<Step>, base: nat)
    requires ValidRun(c, false, s, steps) && Asked(s, base) && |s.trace.emits| >= base
    requires forall k | 0 <= k < |steps| :: !Closes(steps[k])
    ensures Asked(After(c, false, s, steps), base)
    decreases |steps|
  {
    if steps != [] {
      EmitsKept(c, s, steps[0]);
      StaysAsked(c, s, steps[0], base);
      RunStaysAsked(c, Apply(c, s, steps[0]), steps[1..], base);
    }
  }

  /** "Always the final frame": after a terminal event with nothing pending, and
      while streams are not closed, another broadcast is made or pending if and
      only if another event, terminal or not, was heard. */
  lemma {:induction false} TerminalEmitIsTheLastIff(c: nat, s: Sys, steps: seq<Step>)
    requires Shape(s) && s.sawTerminal && s.pending.None?
    requires ValidRun(c, false, s, steps) && forall k | 0 <= k < |steps| :: !Closes(steps[k])
    ensures Asked(After(c, false, s, steps), |s.trace.emits|) <==> exists k :: 0 <= k < |steps| && steps[k].Hears?
    decreases |steps|
  {
    if steps != [] {
      var t := Apply(c, s, steps[0]);
      AsksIffHears(c, s, steps[0]);
      ShapeKept(c, s, steps[0]);
      EmitsKept(c, s, steps[0]);
      if steps[0].Hears? {
        RunStaysAsked(c, t, steps[1..], |s.trace.emits|);
      } else {
        TerminalEmitIsTheLastIff(c, t, steps[1..]);
        assert forall k | 0 < k < |steps| :: steps[k] == steps[1..][k - 1];
        if k :| 0 <= k < |steps[1..]| && steps[1..][k].Hears? {
          assert steps[k + 1].Hears?;
        }
      }
    }
  }

  /** One client listens, the sale has sold out, and the emit is in the chain. */
  ghost predicate JustSoldOut(c: nat, s: Sys) {
    && Reachable(c, true, s) && s.sinks == {0} && s.lastEmitAt == Some(s.loop.now) && s.pending.None?
    && s.loop.timers == map[0 := Interval(s.loop.now + HEARTBEAT_MS)] && s.loop.nextTimer == 1
    && |s.trace.emits| == 1 && s.trace.emits[0].kind.AtTerminal?
    && |s.trace.conns| == 1 && s.chain == Chain(1, false, None)
  }

  lemma {:induction false} SoldOutRun(c: nat) returns (s: Sys)
    ensures JustSoldOut(c, s)
  {
    var s0 := Sys(Loop(0, 0, map[], 0), {}, None, None, None, false, IDLE, 0, Trace([], [], [], [], [], None));
    InitIsReachable(c, true, s0);
    OneMoreStep(c, true, s0, Registers);
    var s1 := Apply(c, s0, Registers);
    assert s1.sinks == {0} && s1.loop.timers == map[0 := Interval(HEARTBEAT_MS)];
    OneMoreStep(c, true, s1, Hears(SaleSoldOut));
    s := Apply(c, s1, Hears(SaleSoldOut));
  }

  /** A punctual run in which a listening client is sent another frame after the
      terminal one: order.accepted arrives late and is answered all the same. */
  lemma {:induction false} TerminalFrameIsNotAlwaysTheLast(c: nat)
    requires c <= HEARTBEAT_MS
    ensures exists s :: Reachable(c, true, s) && s.sinks == {0} && |s.trace.emits| == 2
                        && s.trace.emits[0].kind.AtTerminal? && s.trace.emits[1].kind.IsOrdinary()
  {
    var s := SoldOutRun(c);
    OneMoreStep(c, true, s, Hears(OrderAccepted));
    var t := Apply(c, s, Hears(OrderAccepted));
    if c > 0 {
      assert t.pending == Some(1);
      assert t.loop.timers == map[0 := Interval(s.loop.now + HEARTBEAT_MS), 1 := OneShot(s.loop.now + c)];
      AfterTheInterval(c, t, 1);
    } else {
      assert t.sinks == {0} && |t.trace.emits| == 2;
    }
  }

  lemma {:induction false} AfterTheInterval(c: nat, s: Sys, id: nat)
    requires Reachable(c, true, s) && s.sinks == {0} && |s.trace.emits| == 1 && s.trace.emits[0].kind.AtTerminal?
    requires id != 0 && c <= HEARTBEAT_MS
    requires s.loop.timers == map[0 := Interval(s.loop.now + HEARTBEAT_MS), id := OneShot(s.loop.now + c)]
    ensures exists u :: Reachable(c, true, u) && u.sinks == {0} && |u.trace.emits| == 2
                        && u.trace.emits[0].kind.AtTerminal? && u.trace.emits[1].kind.IsOrdinary()
  {
    OneMoreStep(c, true, s, Tick(c));
    var t := Apply(c, s, Tick(c));
    OneMoreStep(c, true, t, TimerFires(id, {}));
    var u := Apply(c, t, TimerFires(id, {}));
    assert Reachable(c, true, u) && u.sinks == {0} && |u.trace.emits| == 2;
  }
}

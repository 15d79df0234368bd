/**
 The broadcaster and the `/events` handler of one connection together
 (server/src/services/sale-events.ts, server/src/routes/sale.ts), from the turn in
 which the handler registers its sink and begins to read its snapshot.
 */
module SseDelivery {
  import opened Ids
  import opened SaleStatus
  import Hub = SaleEvents
  import Route = SseRoute

  /** Connection `i` of the hub is the sink of the stream. */
  datatype Link = Link(hub: Hub.Sys, i: nat, stream: Route.Stream)

  datatype Step =
    | HubTurns(step: Hub.Step)
    | Closes
    | SnapshotArrives(body: Body)
    | SnapshotFails

  /** One turn of the handler: it registers, and begins to read its snapshot. */
  function Connect(c: nat, h: Hub.Sys, destroyed: bool): Link {
    Link(Hub.Apply(c, h, Hub.Registers), |h.trace.conns|, Route.Connected(destroyed))
  }

  /** What a turn of the hub does to the sink. */
  function Told(s: Hub.Sys, t: Hub.Sys, i: nat): Option<Route.Step>
    requires i < |s.trace.conns| <= |t.trace.conns|
  {
    var now := t.trace.conns[i];
    if |now.out| > |s.trace.conns[i].out| then Some(Route.SinkWrites(now.out[|now.out| - 1]))
    else if i in s.sinks && i !in t.sinks then Some(if now.ended then Route.SinkEnds else Route.SinkDropped)
    else None
  }

  /** Only the handler unregisters its sink, and only a response that is being
      written to throws. */
  predicate Enabled(l: Link, step: Step) {
    match step
    case HubTurns(turn) =>
      Hub.Enabled(l.hub, turn) && turn != Hub.Unregisters(l.i) && (l.i in Hub.Throwing(turn) ==> l.stream.ready)
    case Closes => true
    case _ => l.stream.stage.Awaiting?
  }

  predicate OnTime(l: Link, step: Step) {
    step.HubTurns? ==> Hub.OnTime(l.hub, step.step)
  }

  predicate Leaves(l: Link, step: Step) {
    step.Closes? || step.SnapshotFails? || (step.SnapshotArrives? && (l.stream.ended || l.stream.destroyed))
  }

  function HandlerStep(l: Link, step: Step): Route.Step
    requires !step.HubTurns? && l.i < |l.hub.trace.conns|
  {
    match step
    case Closes => Route.Closes
    case SnapshotArrives(body) => Route.SnapshotArrives(body, l.hub.trace.conns[l.i].since)
    case SnapshotFails => Route.SnapshotFails
  }

  /** Both sides know the same of the sink. */
  ghost predicate Linked(l: Link) {
    && l.i < |l.hub.trace.conns|
    && l.stream.received == l.hub.trace.conns[l.i].out
    && (l.stream.registered <==> l.i in l.hub.sinks)
    && (l.i in l.hub.sinks ==> l.hub.trace.conns[l.i].registered && !l.hub.trace.conns[l.i].ended)
    && Hub.Shape(l.hub)
  }

  lemma {:induction false} ToldIsEnabled(c: nat, l: Link, step: Hub.Step)
    requires Linked(l) && Enabled(l, HubTurns(step))
    ensures l.i < |l.hub.trace.conns| <= |Hub.Apply(c, l.hub, step).trace.conns|
    ensures var told := Told(l.hub, Hub.Apply(c, l.hub, step), l.i); told.Some? ==> Route.Enabled(l.stream, told.value)
  {
    Hub.OutKept(c, l.hub, step, l.i);
    if l.i in l.hub.sinks {
      Hub.WhyDropped(c, l.hub, step, l.i);
    }
  }

  function Apply(c: nat, l: Link, step: Step): Link
    requires Linked(l) && Enabled(l, step)
  {
    if step.HubTurns? then
      ToldIsEnabled(c, l, step.step);
      var t := Hub.Apply(c, l.hub, step.step);
      var told := Told(l.hub, t, l.i);
      l.(hub := t, stream := if told.Some? then Route.Apply(l.stream, told.value) else l.stream)
    else
      l.(hub := if Leaves(l, step) then Hub.Apply(c, l.hub, Hub.Unregisters(l.i)) else l.hub,
         stream := Route.Apply(l.stream, HandlerStep(l, step)))
  }

  lemma {:induction false} ConnectIsLinked(c: nat, h: Hub.Sys, destroyed: bool)
    requires Hub.Shape(h)
    ensures Linked(Connect(c, h, destroyed))
  {
    Hub.ShapeKept(c, h, Hub.Registers);
  }

  lemma {:induction false} HubTurnKeepsLink(c: nat, l: Link, step: Hub.Step)
    requires Linked(l) && Enabled(l, HubTurns(step))
    ensures Linked(Apply(c, l, HubTurns(step)))
  {
    ToldIsEnabled(c, l, step);
    Hub.OutKept(c, l.hub, step, l.i);
    Hub.ConnKept(c, l.hub, step, l.i);
    Hub.ShapeKept(c, l.hub, step);
    if l.i in l.hub.sinks {
      Hub.WhyDropped(c, l.hub, step, l.i);
    }
  }

  lemma {:induction false} HandlerKeepsLink(c: nat, l: Link, step: Step)
    requires Linked(l) && Enabled(l, step) && !step.HubTurns?
    ensures Linked(Apply(c, l, step))
  {
    if Leaves(l, step) {
      var leave := Hub.Unregisters(l.i);
      Hub.ConnKept(c, l.hub, leave, l.i);
      Hub.ShapeKept(c, l.hub, leave);
      UnregisteredIsGone(c, l.hub, l.i);
    }
  }

  lemma {:induction false} UnregisteredIsGone(c: nat, s: Hub.Sys, i: nat)
    requires i < |s.trace.conns| && (i in s.sinks ==> s.trace.conns[i].registered)
    ensures var t := Hub.Apply(c, s, Hub.Unregisters(i));
            i < |t.trace.conns| && i !in t.sinks && t.trace.conns[i].out == s.trace.conns[i].out
  {
  }

  // ---- runs from the registration ----

  ghost predicate ValidRun(c: nat, punctual: bool, l: Link, steps: seq<Step>)
    requires Linked(l)
    decreases |steps|
  {
    steps != [] ==>
      && Enabled(l, steps[0]) && (punctual ==> OnTime(l, steps[0]))
      && (LinkKept(c, l, steps[0]); ValidRun(c, punctual, Apply(c, l, steps[0]), steps[1..]))
  }

  ghost function After(c: nat, punctual: bool, l: Link, steps: seq<Step>): Link
    requires Linked(l) && ValidRun(c, punctual, l, steps)
    decreases |steps|
  {
    if steps == [] then l else (LinkKept(c, l, steps[0]); After(c, punctual, Apply(c, l, steps[0]), steps[1..]))
  }

  lemma {:induction false} LinkKept(c: nat, l: Link, step: Step)
    requires Linked(l) && Enabled(l, step)
    ensures Linked(Apply(c, l, step))
  {
    if step.HubTurns? {
      HubTurnKeepsLink(c, l, step.step);
    } else {
      HandlerKeepsLink(c, l, step);
    }
  }

  /** The snapshot, once sent, was read in turn `from`. */
  predicate Heads(s: Route.Stream, from: nat) {
    s.stage.Served? ==> s.sent != [] && s.sent[0].Snapshot? && s.sent[0].readFrom == from
  }

  lemma {:induction false} HeadsKept(s: Route.Stream, step: Route.Step, from: nat)
    requires Route.Reachable(s) && Route.Enabled(s, step) && Heads(s, from)
    requires step.SnapshotArrives? ==> step.readFrom == from
    ensures Route.Reachable(Route.Apply(s, step)) && Heads(Route.Apply(s, step), from)
  {
    Route.ReachableInv(s);
    Route.OneMoreStep(s, step);
  }

  /** What is true of the connection since it registered with hub `h`: its record,
      and that hub and stream are in states their own machines reach. */
  ghost predicate Since(c: nat, punctual: bool, h: Hub.Sys, l: Link) {
    && Linked(l) && Hub.Reachable(c, punctual, l.hub) && Route.Reachable(l.stream)
    && l.hub.trace.conns[l.i].since == h.loop.turn
    && l.hub.trace.conns[l.i].skipped == |h.trace.frames| && l.hub.trace.conns[l.i].missed == |h.trace.log|
    && Heads(l.stream, h.loop.turn)
  }

  /** A read that may make the first frame of a connection registered with hub `h`:
      the one in flight then, if there was one, and a later one otherwise. */
  ghost predicate FirstRead(h: Hub.Sys, readFrom: nat) {
    if h.chain.reading.Some? then readFrom == h.chain.reading.value else readFrom >= h.loop.turn
  }

  ghost predicate FirstFrom(h: Hub.Sys, t: Hub.Sys, i: nat)
    requires i < |t.trace.conns|
  {
    var got := Hub.Statuses(t.trace.conns[i].out);
    && h.loop.turn < t.loop.turn
    && (got != [] ==> FirstRead(h, got[0].readFrom))
    && (got == [] && i in t.sinks ==>
          if t.chain.reading.Some? then FirstRead(h, t.chain.reading.value) else h.chain.reading.None?)
  }

  lemma {:induction false} FirstFromWritten(h: Hub.Sys, s: Hub.Sys, chunk: Hub.Chunk, throwing: set<nat>, i: nat)
    requires i < |s.trace.conns|
    requires var got := Hub.Statuses(s.trace.conns[i].out);
             if got != [] then FirstRead(h, got[0].readFrom)
             else chunk.StatusChunk? && i in s.sinks ==> FirstRead(h, chunk.frame.readFrom)
    ensures var t := Hub.WrittenToAll(s, chunk, throwing);
            var got := Hub.Statuses(t.trace.conns[i].out);
            && (got != [] ==> FirstRead(h, got[0].readFrom))
            && (got == [] && i in t.sinks ==> chunk.HeartbeatChunk? && Hub.Statuses(s.trace.conns[i].out) == [])
  {
    Hub.TouchedAt(s.trace.conns, s.sinks - throwing, Hub.Write(chunk));
    Hub.StatusesAppend(s.trace.conns[i].out, chunk);
  }

  lemma {:induction false} FirstFromAfterRead(
      h: Hub.Sys, s: Hub.Sys, body: Option<Body>, throwing: set<nat>, i: nat)
    requires i < |s.trace.conns| && FirstFrom(h, s, i) && s.chain.reading.Some?
    ensures FirstFrom(h, Hub.NextTurn(Hub.ChainSettled(s, body, throwing)), i)
  {
    if body.None? {
      Hub.ClosedWritesNothing(s.(chain := s.chain.(reading := None)), i);
    } else {
      var frame := Hub.Frame(body.value, s.chain.reading.value);
      FirstFromWritten(
        h, s.(chain := s.chain.(reading := None), trace := s.trace.(frames := s.trace.frames + [frame])),
        Hub.StatusChunk(frame), throwing, i);
    }
  }

  lemma {:induction false} FirstFromAfterBeat(h: Hub.Sys, s: Hub.Sys, id: nat, throwing: set<nat>, i: nat)
    requires i < |s.trace.conns| && FirstFrom(h, s, i)
    ensures FirstFrom(h, Hub.NextTurn(Hub.HeartbeatFired(s, id, throwing)), i)
  {
    FirstFromWritten(h, s, Hub.HeartbeatChunk, throwing, i);
  }

  lemma {:induction false} FirstFromAfterLookup(h: Hub.Sys, s: Hub.Sys, found: bool, i: nat)
    requires i < |s.trace.conns| && FirstFrom(h, s, i) && s.chain.looking && Hub.ReadsInOrder(s)
    ensures FirstFrom(h, Hub.NextTurn(Hub.LookupSettled(s, found)), i)
  {
    Hub.ClosedWritesNothing(s.(chain := s.chain.(looking := false)), i);
  }

  lemma {:induction false} FirstFromKept(c: nat, h: Hub.Sys, s: Hub.Sys, step: Hub.Step, i: nat)
    requires Hub.Shape(s) && Hub.ReadsInOrder(s) && Hub.Enabled(s, step)
    requires i < |s.trace.conns| && FirstFrom(h, s, i)
    ensures i < |Hub.Apply(c, s, step).trace.conns| && FirstFrom(h, Hub.Apply(c, s, step), i)
  {
    Hub.ConnKept(c, s, step, i);
    match step
    case ClosesAll => Hub.ClosedWritesNothing(s, i);
    case LookupSettles(found) => FirstFromAfterLookup(h, s, found, i);
    case TimerFires(id, throwing) =>
      if s.loop.timers[id].Interval? {
        FirstFromAfterBeat(h, s, id, throwing, i);
      }
    case ChainSettles(body, throwing) => FirstFromAfterRead(h, s, body, throwing, i);
    case ChainStarts =>
    case Registers =>
    case Unregisters(_) =>
    case _ => Hub.CalmTurn(c, s, step);
  }

  ghost predicate Inv(c: nat, punctual: bool, h: Hub.Sys, l: Link) {
    Since(c, punctual, h, l) && FirstFrom(h, l.hub, l.i)
  }

  lemma {:induction false} ConnectInv(c: nat, punctual: bool, h: Hub.Sys, destroyed: bool)
    requires Hub.Reachable(c, punctual, h)
    ensures Inv(c, punctual, h, Connect(c, h, destroyed))
  {
    Hub.ReachableInv(c, punctual, h);
    assert Hub.Holds(Hub.PShape, c, h) && Hub.Holds(Hub.PReads, c, h);
    ConnectIsLinked(c, h, destroyed);
    Hub.OneMoreStep(c, punctual, h, Hub.Registers);
    Route.ConnectedIsReachable(destroyed);
  }

  lemma {:induction false} HubTurnInv(c: nat, punctual: bool, h: Hub.Sys, l: Link, step: Hub.Step)
    requires Inv(c, punctual, h, l) && Enabled(l, HubTurns(step)) && (punctual ==> Hub.OnTime(l.hub, step))
    ensures Inv(c, punctual, h, Apply(c, l, HubTurns(step)))
  {
    Hub.ReachableInv(c, punctual, l.hub);
    assert Hub.Holds(Hub.PReads, c, l.hub);
    HubTurnKeepsLink(c, l, step);
    ToldIsEnabled(c, l, step);
    Hub.OneMoreStep(c, punctual, l.hub, step);
    Hub.ConnKept(c, l.hub, step, l.i);
    FirstFromKept(c, h, l.hub, step, l.i);
    var told := Told(l.hub, Hub.Apply(c, l.hub, step), l.i);
    if told.Some? {
      HeadsKept(l.stream, told.value, h.loop.turn);
    }
  }

  lemma {:induction false} HandlerStepInv(c: nat, punctual: bool, h: Hub.Sys, l: Link, step: Step)
    requires Inv(c, punctual, h, l) && Enabled(l, step) && !step.HubTurns?
    ensures Inv(c, punctual, h, Apply(c, l, step))
  {
    HandlerKeepsLink(c, l, step);
    HeadsKept(l.stream, HandlerStep(l, step), h.loop.turn);
    if Leaves(l, step) {
      var leave := Hub.Unregisters(l.i);
      Hub.ReachableInv(c, punctual, l.hub);
      assert Hub.Holds(Hub.PReads, c, l.hub);
      Hub.OneMoreStep(c, punctual, l.hub, leave);
      Hub.ConnKept(c, l.hub, leave, l.i);
      FirstFromKept(c, h, l.hub, leave, l.i);
    }
  }

  lemma {:induction false} RunInv(c: nat, punctual: bool, h: Hub.Sys, l: Link, steps: seq<Step>)
    requires Inv(c, punctual, h, l) && ValidRun(c, punctual, l, steps)
    ensures Inv(c, punctual, h, After(c, punctual, l, steps)) && After(c, punctual, l, steps).i == l.i
    decreases |steps|
  {
    if steps != [] {
      if steps[0].HubTurns? {
        HubTurnInv(c, punctual, h, l, steps[0].step);
      } else {
        HandlerStepInv(c, punctual, h, l, steps[0]);
      }
      RunInv(c, punctual, h, Apply(c, l, steps[0]), steps[1..]);
    }
  }

  /** Some run from the registration with hub `h` leads here. */
  ghost predicate Follows(c: nat, punctual: bool, h: Hub.Sys, l: Link) {
    && Hub.Reachable(c, punctual, h)
    && exists destroyed, steps ::
         && Linked(Connect(c, h, destroyed))
         && ValidRun(c, punctual, Connect(c, h, destroyed), steps)
         && After(c, punctual, Connect(c, h, destroyed), steps) == l
  }

  lemma {:induction false} FollowsInv(c: nat, punctual: bool, h: Hub.Sys, l: Link)
    requires Follows(c, punctual, h, l)
    ensures Inv(c, punctual, h, l) && l.i == |h.trace.conns|
  {
    var destroyed, steps :|
      && Linked(Connect(c, h, destroyed))
      && ValidRun(c, punctual, Connect(c, h, destroyed), steps)
      && After(c, punctual, Connect(c, h, destroyed), steps) == l;
    ConnectInv(c, punctual, h, destroyed);
    RunInv(c, punctual, h, Connect(c, h, destroyed), steps);
  }

  // ---- what a client is sent ----

  /** The status frames of a response body. */
  function StatusFrames(sent: seq<Route.Out>): seq<Hub.Frame> {
    if sent == [] then []
    else
      var rest := StatusFrames(sent[..|sent| - 1]);
      match sent[|sent| - 1]
      case Forwarded(StatusChunk(frame)) => rest + [frame]
      case _ => rest
  }

  lemma {:induction false} ForwardKeepsStatuses(chunks: seq<Hub.Chunk>, snapshot: Route.Out)
    requires snapshot.Snapshot?
    ensures StatusFrames([snapshot] + Route.Forward(chunks)) == Hub.Statuses(chunks)
  {
    var sent := [snapshot] + Route.Forward(chunks);
    if chunks == [] {
      assert sent == [snapshot] && sent[..0] == [];
    } else {
      var rest := chunks[..|chunks| - 1];
      ForwardKeepsStatuses(rest, snapshot);
      assert sent[..|sent| - 1] == [snapshot] + Route.Forward(rest);
    }
  }

  lemma {:induction false} ReceivedIsTheLog(c: nat, punctual: bool, h: Hub.Sys, l: Link)
    requires Follows(c, punctual, h, l)
    ensures |h.trace.log| <= |l.hub.trace.log| && |h.trace.frames| <= |l.hub.trace.frames|
    ensures l.stream.received <= l.hub.trace.log[|h.trace.log|..]
    ensures Hub.Statuses(l.stream.received) <= l.hub.trace.frames[|h.trace.frames|..]
    ensures l.stream.registered ==>
              && l.stream.received == l.hub.trace.log[|h.trace.log|..]
              && Hub.Statuses(l.stream.received) == l.hub.trace.frames[|h.trace.frames|..]
  {
    FollowsInv(c, punctual, h, l);
    Hub.ReachableInv(c, punctual, l.hub);
    assert Hub.Holds(Hub.PSlices, c, l.hub) && Hub.Holds(Hub.PLogged, c, l.hub);
    var conn, current := l.hub.trace.conns[l.i], l.i in l.hub.sinks;
    assert Hub.SliceOf(l.hub.trace.frames, conn, current) && Hub.LogOf(l.hub.trace.log, conn, current);
  }

  lemma {:induction false} SnapshotComesFirst(c: nat, punctual: bool, h: Hub.Sys, l: Link) returns (snapshot: Route.Out)
    requires Follows(c, punctual, h, l) && l.stream.stage.Served?
    ensures snapshot.Snapshot? && snapshot == Route.Snapshot(snapshot.body, h.loop.turn)
    ensures l.stream.sent == [snapshot] + Route.Forward(l.stream.received)
  {
    FollowsInv(c, punctual, h, l);
    Route.ReachableInv(l.stream);
    snapshot := l.stream.sent[0];
  }

  /** The body of a served client is its snapshot, read in the turn it registered,
      and then what the broadcaster sent to everybody since that turn, heartbeats
      and status frames alike, nothing missing, doubled or out of order: all of it
      while the client is a sink, an initial part of it afterwards. */
  lemma {:induction false} ClientSeesEveryBroadcast(c: nat, punctual: bool, h: Hub.Sys, l: Link)
    requires Follows(c, punctual, h, l) && l.stream.stage.Served?
    ensures |h.trace.log| <= |l.hub.trace.log| && |h.trace.frames| <= |l.hub.trace.frames|
    ensures exists body :: l.stream.sent == [Route.Snapshot(body, h.loop.turn)] + Route.Forward(l.stream.received)
    ensures l.stream.received <= l.hub.trace.log[|h.trace.log|..]
    ensures StatusFrames(l.stream.sent) <= l.hub.trace.frames[|h.trace.frames|..]
    ensures l.stream.registered ==>
              && l.stream.received == l.hub.trace.log[|h.trace.log|..]
              && StatusFrames(l.stream.sent) == l.hub.trace.frames[|h.trace.frames|..]
  {
    ReceivedIsTheLog(c, punctual, h, l);
    var snapshot := SnapshotComesFirst(c, punctual, h, l);
    ForwardKeepsStatuses(l.stream.received, snapshot);
  }

  /** What the handler's own turns come to on both sides: a snapshot is served in the
      turn it arrives unless the response has gone, and whenever the handler leaves
      or the connection closes the broadcaster loses the sink. */
  lemma {:induction false} HandlerTurnsAreExact(c: nat, punctual: bool, h: Hub.Sys, l: Link, step: Step)
    requires Follows(c, punctual, h, l) && Linked(l) && Enabled(l, step) && !step.HubTurns?
    ensures var t, gone := Apply(c, l, step), l.stream.ended || l.stream.destroyed;
            && (step.Closes? ==> t.stream.destroyed && t.stream.stage == l.stream.stage && t.i !in t.hub.sinks)
            && (step.SnapshotFails? ==> t.stream.stage == Route.Rejected && t.i !in t.hub.sinks)
            && (step.SnapshotArrives? && gone ==> t.stream.stage == Route.Abandoned && t.i !in t.hub.sinks)
            && (step.SnapshotArrives? && !gone ==>
                  && t.stream.stage == Route.Served && t.hub == l.hub
                  && t.stream.sent == [Route.Snapshot(step.body, h.loop.turn)] + Route.Forward(l.stream.received))
  {
    FollowsInv(c, punctual, h, l);
    HandlerKeepsLink(c, l, step);
    Route.HandlerIsExact(l.stream, HandlerStep(l, step));
  }

  /** No way out of the handler leaves its sink with the broadcaster. */
  lemma {:induction false} NoSinkLeaks(c: nat, punctual: bool, h: Hub.Sys, l: Link)
    requires Follows(c, punctual, h, l) && !l.stream.stage.Awaiting?
    requires l.stream.stage.Rejected? || l.stream.stage.Abandoned? || l.stream.ended || l.stream.destroyed
    ensures l.i !in l.hub.sinks
  {
    FollowsInv(c, punctual, h, l);
    Route.EveryExitUnregisters(l.stream);
  }

  /** The frames of a body are in the order their reads began, snapshot included. */
  ghost predicate InReadOrder(sent: seq<Route.Out>)
    requires sent != [] && sent[0].Snapshot?
  {
    var frames := StatusFrames(sent);
    && (forall k {:trigger frames[k]} | 0 <= k < |frames| :: sent[0].readFrom <= frames[k].readFrom)
    && (forall j, k {:trigger frames[j], frames[k]} | 0 <= j < k < |frames| :: frames[j].readFrom < frames[k].readFrom)
  }

  /** A client may be shown an older reading right after its snapshot: a body is in
      read order if and only if the broadcaster was reading nothing when the client
      registered, or the client got no frame. */
  lemma {:induction false} BodyIsInReadOrderIff(c: nat, punctual: bool, h: Hub.Sys, l: Link)
    requires Follows(c, punctual, h, l) && l.stream.stage.Served?
    ensures l.stream.sent != [] && l.stream.sent[0].Snapshot?
    ensures InReadOrder(l.stream.sent) <==> h.chain.reading.None? || StatusFrames(l.stream.sent) == []
  {
    FramesAreSorted(c, punctual, h, l);
    var snapshot := SnapshotComesFirst(c, punctual, h, l);
    FirstFrameIsFirstRead(c, punctual, h, l, snapshot);
  }

  lemma {:induction false} FirstFrameIsFirstRead(c: nat, punctual: bool, h: Hub.Sys, l: Link, snapshot: Route.Out)
    requires Follows(c, punctual, h, l) && snapshot.Snapshot?
    requires l.stream.sent == [snapshot] + Route.Forward(l.stream.received)
    ensures h.chain.reading.Some? ==> h.chain.reading.value < h.loop.turn
    ensures var frames := StatusFrames(l.stream.sent); frames != [] ==> FirstRead(h, frames[0].readFrom)
  {
    FollowsInv(c, punctual, h, l);
    ForwardKeepsStatuses(l.stream.received, snapshot);
    Hub.ReachableInv(c, punctual, h);
    assert Hub.Holds(Hub.PReads, c, h);
  }

  lemma {:induction false} SliceIsSorted(all: seq<Hub.Frame>, skipped: nat, frames: seq<Hub.Frame>)
    requires skipped <= |all| && frames <= all[skipped..]
    requires forall j, k {:trigger all[j], all[k]} | 0 <= j < k < |all| :: all[j].readFrom < all[k].readFrom
    ensures forall j, k {:trigger frames[j], frames[k]} | 0 <= j < k < |frames| ::
              frames[j].readFrom < frames[k].readFrom
  {
    forall j, k | 0 <= j < k < |frames| ensures frames[j].readFrom < frames[k].readFrom {
      assert frames[j] == all[skipped + j] && frames[k] == all[skipped + k];
    }
  }

  lemma {:induction false} FramesAreSorted(c: nat, punctual: bool, h: Hub.Sys, l: Link)
    requires Follows(c, punctual, h, l) && l.stream.stage.Served?
    ensures forall j, k {:trigger StatusFrames(l.stream.sent)[j], StatusFrames(l.stream.sent)[k]} ::
              0 <= j < k < |StatusFrames(l.stream.sent)| ==>
                StatusFrames(l.stream.sent)[j].readFrom < StatusFrames(l.stream.sent)[k].readFrom
  {
    FollowsInv(c, punctual, h, l);
    ClientSeesEveryBroadcast(c, punctual, h, l);
    Hub.ReachableInv(c, punctual, l.hub);
    assert Hub.Holds(Hub.PReads, c, l.hub);
    SliceIsSorted(l.hub.trace.frames, |h.trace.frames|, StatusFrames(l.stream.sent));
  }

  // ---- such a run ----

  /** A client listens, and a broadcast is being read for it. */
  ghost predicate Reading(c: nat, h: Hub.Sys) {
    && Hub.Reachable(c, true, h) && Hub.Shape(h)
    && |h.trace.conns| == 1 && h.sinks == {0} && h.chain.reading.Some? && h.chain.reading.value < h.loop.turn
  }

  lemma {:induction false} ReadingRun(c: nat) returns (h: Hub.Sys)
    ensures Reading(c, h)
  {
    var s := Hub.SoldOutRun(c);
    Hub.ReachableInv(c, true, s);
    assert Hub.Holds(Hub.PShape, c, s);
    Hub.OneMoreStep(c, true, s, Hub.ChainStarts);
    var t := Hub.Apply(c, s, Hub.ChainStarts);
    Hub.OneMoreStep(c, true, t, Hub.LookupSettles(true));
    h := Hub.Apply(c, t, Hub.LookupSettles(true));
  }

  /** The broadcast settles before the second client's snapshot. */
  lemma {:induction false} SettlesFirst(c: nat, h: Hub.Sys, older: Body) returns (l: Link)
    requires Reading(c, h)
    ensures Linked(Connect(c, h, false)) && Enabled(Connect(c, h, false), HubTurns(Hub.ChainSettles(Some(older), {})))
    ensures l == Apply(c, Connect(c, h, false), HubTurns(Hub.ChainSettles(Some(older), {}))) && Linked(l)
    ensures l.stream == Route.Apply(
              Route.Connected(false), Route.SinkWrites(Hub.StatusChunk(Hub.Frame(older, h.chain.reading.value))))
    ensures l.hub.trace.conns[l.i].since == h.loop.turn
  {
    var l0, turn := Connect(c, h, false), Hub.ChainSettles(Some(older), {});
    ConnectIsLinked(c, h, false);
    l := Apply(c, l0, HubTurns(turn));
    HubTurnKeepsLink(c, l0, turn);
    var frame := Hub.Frame(older, h.chain.reading.value);
    Hub.TouchedAt(l0.hub.trace.conns, l0.hub.sinks - {}, Hub.Write(Hub.StatusChunk(frame)));
  }

  lemma {:induction false} TwoSteps(c: nat, l: Link, first: Step, second: Step)
    requires Linked(l) && Enabled(l, first) && OnTime(l, first) && Linked(Apply(c, l, first))
    requires Enabled(Apply(c, l, first), second) && OnTime(Apply(c, l, first), second)
    ensures ValidRun(c, true, l, [first, second])
    ensures After(c, true, l, [first, second]) == Apply(c, Apply(c, l, first), second)
  {
    var steps := [first, second];
    var m := Apply(c, l, first);
    LinkKept(c, m, second);
    assert steps[1..] == [second] && [second][1..] == [];
    assert ValidRun(c, true, Apply(c, m, second), []);
    assert ValidRun(c, true, m, [second]) && After(c, true, m, [second]) == Apply(c, m, second);
  }

  /** A second client connects while a broadcast is being read. The broadcast
      settles first and waits in the buffer for the snapshot, which was read later
      and goes out before it. */
  lemma {:induction false} BufferedFrameMayBeOlder(c: nat, older: Body, body: Body)
    ensures exists h, l, readFrom: nat :: Follows(c, true, h, l) && readFrom < h.loop.turn && l.stream.sent
              == [Route.Snapshot(body, h.loop.turn), Route.Forwarded(Hub.StatusChunk(Hub.Frame(older, readFrom)))]
  {
    var h := ReadingRun(c);
    var l0 := Connect(c, h, false);
    var settles, arrives := HubTurns(Hub.ChainSettles(Some(older), {})), SnapshotArrives(body);
    var l1 := SettlesFirst(c, h, older);
    TwoSteps(c, l0, settles, arrives);
    var l, chunk := Apply(c, l1, arrives), Hub.StatusChunk(Hub.Frame(older, h.chain.reading.value));
    assert Follows(c, true, h, l) by {
      assert ValidRun(c, true, l0, [settles, arrives]) && After(c, true, l0, [settles, arrives]) == l;
    }
    assert Route.Forward([chunk]) == [Route.Forwarded(chunk)] by {
      Route.ForwardAppend([], chunk);
      assert [] + [chunk] == [chunk];
    }
    assert l.stream.sent == [Route.Snapshot(body, h.loop.turn), Route.Forwarded(chunk)];
  }
}

/**
 One SSE connection (the `/events` handler of server/src/routes/sale.ts): the
 sink registers before the snapshot is read, what arrives meanwhile is buffered,
 and every way out unregisters.
 */
module SseRoute {
  import opened Ids
  import opened SaleStatus
  import SaleEvents

  type Chunk = SaleEvents.Chunk
  type Frame = SaleEvents.Frame

  /** The snapshot carries the turn in which its own read began, as frames do. */
  datatype Out = Snapshot(body: Body, readFrom: nat) | Forwarded(chunk: Chunk)

  /** How far the handler got: waiting for the snapshot, or returned. */
  datatype Stage = Awaiting | Served | Rejected | Abandoned

  /** `received` is every chunk the broadcaster wrote to the sink; `sent` is the
      response body. A response may be `destroyed` before the close listener was
      attached, so that no close event is ever seen. */
  datatype Stream = Stream(
    stage: Stage,
    ready: bool,
    buffered: seq<Chunk>,
    sent: seq<Out>,
    status: Option<nat>,
    ended: bool,
    destroyed: bool,
    registered: bool,
    received: seq<Chunk>)

  function Forward(chunks: seq<Chunk>): (r: seq<Out>)
    ensures |r| == |chunks|
  {
    if chunks == [] then [] else Forward(chunks[..|chunks| - 1]) + [Forwarded(chunks[|chunks| - 1])]
  }

  lemma {:induction false} ForwardAppend(chunks: seq<Chunk>, chunk: Chunk)
    ensures Forward(chunks + [chunk]) == Forward(chunks) + [Forwarded(chunk)]
  {
    assert (chunks + [chunk])[..|chunks|] == chunks;
  }

  lemma {:induction false} ForwardOneMore(head: seq<Out>, chunks: seq<Chunk>, i: nat)
    requires i < |chunks|
    ensures head + Forward(chunks[..i]) + [Forwarded(chunks[i])] == head + Forward(chunks[..i + 1])
  {
    ForwardAppend(chunks[..i], chunks[i]);
    assert chunks[..i + 1] == chunks[..i] + [chunks[i]];
  }

  // ---- the handler on values ----

  datatype Step =
    | SinkWrites(chunk: Chunk)
    | SinkEnds
    | SinkDropped
    | Closes
    | SnapshotArrives(body: Body, readFrom: nat)
    | SnapshotFails

  function Connected(destroyed: bool): Stream {
    Stream(Awaiting, false, [], [], None, false, destroyed, true, [])
  }

  /** The broadcaster only writes to, ends and drops registered sinks. It drops one
      whose write throws, which the buffer never does. The snapshot settles once. */
  predicate Enabled(s: Stream, step: Step) {
    match step
    case SinkWrites(_) => s.registered
    case SinkEnds => s.registered
    case SinkDropped => s.registered && s.ready
    case Closes => true
    case _ => s.stage.Awaiting?
  }

  function Apply(s: Stream, step: Step): Stream
    requires Enabled(s, step)
  {
    match step
    case SinkWrites(chunk) =>
      var t := s.(received := s.received + [chunk]);
      if t.ready then t.(sent := t.sent + [Forwarded(chunk)]) else t.(buffered := t.buffered + [chunk])
    case SinkEnds => s.(ended := true, registered := false)
    case SinkDropped => s.(registered := false)
    case Closes => s.(destroyed := true, registered := false)
    case SnapshotFails =>
      s.(stage := Rejected, registered := false, status := if s.ended || s.destroyed then s.status else Some(503))
    case SnapshotArrives(body, readFrom) =>
      if s.ended || s.destroyed then s.(stage := Abandoned, registered := false)
      else
        s.(stage := Served, ready := true, status := Some(200), buffered := [],
           sent := s.sent + [Snapshot(body, readFrom)] + Forward(s.buffered))
  }

  // ---- the handler as the process runs it ----

  class EventsHandler {
    var stage: Stage
    var ready: bool
    var buffered: seq<Chunk>
    var sent: seq<Out>
    var status: Option<nat>
    var ended: bool
    var destroyed: bool
    var registered: bool
    ghost var received: seq<Chunk>

    ghost function View(): Stream
      reads this
    {
      Stream(stage, ready, buffered, sent, status, ended, destroyed, registered, received)
    }

    /** Some run of the connection led here, so every run theorem below holds. */
    ghost predicate Valid()
      reads this
    {
      Reachable(View())
    }

    constructor (destroyed: bool)
      ensures Valid() && View() == Connected(destroyed)
    {
      stage, ready, buffered, sent, status := Awaiting, false, [], [], None;
      ended, this.destroyed, registered, received := false, destroyed, true, [];
      new;
      ConnectedIsReachable(destroyed);
    }

    method Write(chunk: Chunk)
      requires Valid() && registered
      modifies this
      ensures Valid() && View() == Apply(old(View()), SinkWrites(chunk))
    {
      OneMoreStep(View(), SinkWrites(chunk));
      received := received + [chunk];
      if ready {
        sent := sent + [Forwarded(chunk)];
      } else {
        buffered := buffered + [chunk];
      }
    }

    method End()
      requires Valid() && registered
      modifies this
      ensures Valid() && View() == Apply(old(View()), SinkEnds)
    {
      OneMoreStep(View(), SinkEnds);
      ended, registered := true, false;
    }

    method OnDropped()
      requires Valid() && registered && ready
      modifies this
      ensures Valid() && View() == Apply(old(View()), SinkDropped)
    {
      OneMoreStep(View(), SinkDropped);
      registered := false;
    }

    method OnClose()
      requires Valid()
      modifies this
      ensures Valid() && View() == Apply(old(View()), Closes)
    {
      OneMoreStep(View(), Closes);
      destroyed, registered := true, false;
    }

    method OnSnapshotFailed()
      requires Valid() && stage.Awaiting?
      modifies this
      ensures Valid() && View() == Apply(old(View()), SnapshotFails)
    {
      OneMoreStep(View(), SnapshotFails);
      registered, stage := false, Rejected;
      if !ended && !destroyed {
        status := Some(503);
      }
    }

    method Flush(chunks: seq<Chunk>)
      modifies `sent
      ensures sent == old(sent) + Forward(chunks)
    {
      for i := 0 to |chunks|
        invariant sent == old(sent) + Forward(chunks[..i])
      {
        ForwardOneMore(old(sent), chunks, i);
        sent := sent + [Forwarded(chunks[i])];
      }
      assert chunks[..|chunks|] == chunks;
    }

    /** Snapshot first, then what was buffered meanwhile. */
    method OnSnapshot(body: Body, readFrom: nat)
      requires Valid() && stage.Awaiting?
      modifies this
      ensures Valid() && View() == Apply(old(View()), SnapshotArrives(body, readFrom))
    {
      OneMoreStep(View(), SnapshotArrives(body, readFrom));
      if destroyed || ended {
        registered, stage := false, Abandoned;
        return;
      }
      status := Some(200);
      sent := sent + [Snapshot(body, readFrom)];
      ready := true;
      var chunks := buffered;
      buffered := [];
      Flush(chunks);
      stage := Served;
    }
  }

  // ---- every connection, whatever happens to it ----

  ghost predicate ValidRun(s: Stream, steps: seq<Step>)
    decreases |steps|
  {
    steps != [] ==> Enabled(s, steps[0]) && ValidRun(Apply(s, steps[0]), steps[1..])
  }

  ghost function After(s: Stream, steps: seq<Step>): Stream
    requires ValidRun(s, steps)
    decreases |steps|
  {
    if steps == [] then s else After(Apply(s, steps[0]), steps[1..])
  }

  ghost predicate Inv(s: Stream) {
    && (s.ready <==> s.stage.Served?)
    && (s.stage.Served? ==> s.buffered == [] && s.status == Some(200))
    && (s.stage.Served? ==> s.sent != [] && s.sent[0].Snapshot? && s.sent[1..] == Forward(s.received))
    && (!s.stage.Served? ==> s.buffered == s.received && s.sent == [])
    && (s.stage.Awaiting? || s.stage.Abandoned? ==> s.status.None?)
    && (s.stage.Rejected? || s.stage.Abandoned? ==> !s.registered)
    && (s.ended || (s.destroyed && !s.stage.Awaiting?) ==> !s.registered)
  }

  lemma {:induction false} StepInv(s: Stream, step: Step)
    requires Inv(s) && Enabled(s, step)
    ensures Inv(Apply(s, step))
  {
    if step.SinkWrites? {
      ForwardAppend(s.received, step.chunk);
    }
  }

  lemma {:induction false} RunInv(s: Stream, steps: seq<Step>)
    requires Inv(s) && ValidRun(s, steps)
    ensures Inv(After(s, steps))
    decreases |steps|
  {
    if steps != [] {
      StepInv(s, steps[0]);
      RunInv(Apply(s, steps[0]), steps[1..]);
    }
  }

  ghost predicate Reachable(s: Stream) {
    exists destroyed, steps :: ValidRun(Connected(destroyed), steps) && After(Connected(destroyed), steps) == s
  }

  lemma {:induction false} ConnectedIsReachable(destroyed: bool)
    ensures Reachable(Connected(destroyed))
  {
    var s := Connected(destroyed);
    assert ValidRun(s, []) && After(s, []) == s;
  }

  lemma {:induction false} OneMoreStep(s: Stream, step: Step)
    requires Reachable(s) && Enabled(s, step)
    ensures Reachable(Apply(s, step))
  {
    var destroyed, steps :| ValidRun(Connected(destroyed), steps) && After(Connected(destroyed), steps) == s;
    RunAppend(Connected(destroyed), steps, step);
  }

  lemma {:induction false} RunAppend(s: Stream, steps: seq<Step>, step: Step)
    requires ValidRun(s, steps) && Enabled(After(s, steps), step)
    ensures ValidRun(s, steps + [step]) && After(s, steps + [step]) == Apply(After(s, steps), step)
    decreases |steps|
  {
    var more := steps + [step];
    if steps == [] {
      assert more[1..] == [];
    } else {
      RunAppend(Apply(s, steps[0]), steps[1..], step);
      assert more[1..] == steps[1..] + [step];
    }
  }

  lemma {:induction false} ReachableInv(s: Stream)
    requires Reachable(s)
    ensures Inv(s)
  {
    var destroyed, steps :| ValidRun(Connected(destroyed), steps) && After(Connected(destroyed), steps) == s;
    RunInv(Connected(destroyed), steps);
  }

  /** The body is the snapshot and then every chunk written to the sink since it
      registered, in order, none lost or doubled; before the snapshot, and when
      there is none, it is empty. */
  lemma {:induction false} BodyIsSnapshotThenEverything(s: Stream)
    requires Reachable(s)
    ensures s.stage.Served? ==> exists body, readFrom :: s.sent == [Snapshot(body, readFrom)] + Forward(s.received)
    ensures !s.stage.Served? ==> s.sent == []
  {
    ReachableInv(s);
    if s.stage.Served? {
      assert s.sent == [Snapshot(s.sent[0].body, s.sent[0].readFrom)] + Forward(s.received);
    }
  }

  /** What each happening does to a connection. A snapshot opens the response unless
      it has gone meanwhile, which ends the handler with nothing sent; an end, a close
      and a drop take the sink away and leave what was sent. */
  lemma {:induction false} HandlerIsExact(s: Stream, step: Step)
    requires Reachable(s) && Enabled(s, step)
    ensures var t := Apply(s, step);
            && (step.SinkWrites? ==>
                  t == s.(received := t.received, sent := t.sent, buffered := t.buffered)
                  && t.received == s.received + [step.chunk]
                  && t.sent == s.sent + if s.stage.Served? then [Forwarded(step.chunk)] else [])
            && (step.SinkEnds? ==> t == s.(ended := true, registered := false))
            && (step.SinkDropped? ==> t == s.(registered := false))
            && (step.Closes? ==> t == s.(destroyed := true, registered := false))
            && (step.SnapshotFails? ==>
                  && t.stage == Rejected && !t.registered && t.sent == []
                  && (t.status == Some(503) <==> !s.ended && !s.destroyed))
            && (step.SnapshotArrives? ==>
                  && t.stage == (if s.ended || s.destroyed then Abandoned else Served)
                  && (t.stage == Abandoned ==> t.sent == [] && t.status.None? && !t.registered)
                  && (t.stage == Served ==>
                        && t.status == Some(200) && t.registered == s.registered
                        && t.sent == [Snapshot(step.body, step.readFrom)] + Forward(s.received)))
  {
    ReachableInv(s);
  }

  /** Failed snapshot, close during the await, close before the listener, closeAll:
      once the handler is through, such a connection is no longer a sink. */
  lemma {:induction false} EveryExitUnregisters(s: Stream)
    requires Reachable(s) && !s.stage.Awaiting?
    requires s.stage.Rejected? || s.stage.Abandoned? || s.ended || s.destroyed
    ensures !s.registered
  {
    ReachableInv(s);
  }

  /** Headers wait for the snapshot, so a failed one is a clean 503. */
  lemma {:induction false} FailedSnapshotIsCleanly503(s: Stream)
    requires Reachable(s) && s.stage.Awaiting? && !s.ended && !s.destroyed
    ensures var t := Apply(s, SnapshotFails); t.status == Some(503) && t.sent == [] && !t.registered
  {
    ReachableInv(s);
  }
}

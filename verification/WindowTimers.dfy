/**
 The window-boundary timers (`armWindowTimers` in
 server/src/services/sale-events.ts). Delays beyond the platform's ceiling are
 slept in chunks, and every wake-up looks at the clock again.
 */
module WindowTimers {
  import opened Ids
  import opened SaleStatus

  const MAX_TIMEOUT_MS: int := 0x7FFF_FFFF

  datatype Event = SaleStarted | SaleEnded

  /** A timer of the chain of `event`, after `fires` wake-ups of that chain. */
  datatype Armed = Armed(event: Event, setAt: int, due: int, fires: nat)

  datatype Published = Published(event: Event, at: int, wakes: nat)

  datatype Sys = Sys(
    window: Window,
    armedAt: int,
    now: int,
    timers: map<nat, Armed>,
    nextTimer: nat,
    cancelled: bool,
    published: seq<Published>)

  function Boundary(w: Window, e: Event): int {
    if e.SaleStarted? then w.startMs else w.endMs
  }

  function Min(a: int, b: int): int {
    if a <= b then a else b
  }

  function Max(a: int, b: int): int {
    if a >= b then a else b
  }

  function Delay(remaining: int): int {
    Min(Max(remaining, 0), MAX_TIMEOUT_MS)
  }

  function Scheduled(s: Sys, e: Event, fires: nat): Sys {
    s.(timers := s.timers[s.nextTimer := Armed(e, s.now, s.now + Delay(Boundary(s.window, e) - s.now), fires)],
       nextTimer := s.nextTimer + 1)
  }

  /** An elapsed boundary arms nothing. */
  function ArmedFor(s: Sys, e: Event): Sys {
    if Boundary(s.window, e) <= s.now then s else Scheduled(s, e, 0)
  }

  function Started(w: Window, now: int): Sys {
    ArmedFor(ArmedFor(Sys(w, now, now, map[], 0, false, []), SaleStarted), SaleEnded)
  }

  function Fired(s: Sys, id: nat): Sys
    requires id in s.timers
  {
    var timer := s.timers[id];
    var t := s.(timers := s.timers - {id});
    if s.cancelled then t
    else if Boundary(s.window, timer.event) > s.now then Scheduled(t, timer.event, timer.fires + 1)
    else t.(published := t.published + [Published(timer.event, s.now, timer.fires + 1)])
  }

  function Cancelled(s: Sys): Sys {
    s.(cancelled := true, timers := map[])
  }

  // ---- the timers as the process runs them ----

  class Timers {
    const window: Window
    const armedAt: int
    var now: int
    var timers: map<nat, Armed>
    var nextTimer: nat
    var cancelled: bool
    var published: seq<Published>

    function View(): Sys
      reads this
    {
      Sys(window, armedAt, now, timers, nextTimer, cancelled, published)
    }

    /** Some run of the timers led here, so every run theorem below holds. */
    ghost predicate Valid()
      reads this
    {
      Reachable(window, armedAt, false, View())
    }

    constructor (window: Window, now: int)
      ensures Valid() && View() == Started(window, now)
      ensures IsArmed(View(), SaleStarted) <==> now < window.startMs
      ensures IsArmed(View(), SaleEnded) <==> now < window.endMs
    {
      this.window, armedAt, this.now := window, now, now;
      timers, nextTimer, cancelled, published := map[], 0, false, [];
      new;
      ArmAt(SaleStarted);
      ArmAt(SaleEnded);
      StartIsReachable(window, now, false);
      OneTimerPerBoundary(window, now, View());
    }

    method ArmAt(event: Event)
      modifies `timers, `nextTimer
      ensures View() == ArmedFor(old(View()), event)
    {
      if Boundary(window, event) <= now {
        return;
      }
      Schedule(event, 0);
    }

    method Schedule(event: Event, fires: nat)
      modifies `timers, `nextTimer
      ensures View() == Scheduled(old(View()), event, fires)
    {
      var remaining := Boundary(window, event) - now;
      timers := timers[nextTimer := Armed(event, now, now + Min(Max(remaining, 0), MAX_TIMEOUT_MS), fires)];
      nextTimer := nextTimer + 1;
    }

    method OnTimer(id: nat)
      requires Valid() && id in timers
      modifies this
      ensures Valid() && View() == Fired(old(View()), id)
      ensures var timer := old(timers[id]);
              var due := now >= if timer.event == SaleEnded then window.endMs else window.startMs;
              published == old(published)
                           + if due && !cancelled then [Published(timer.event, now, timer.fires + 1)] else []
    {
      OneMoreStep(window, armedAt, false, View(), Fire(id));
      var timer := timers[id];
      timers := timers - {id};
      if cancelled {
        return;
      }
      if Boundary(window, timer.event) > now {
        Schedule(timer.event, timer.fires + 1);
        return;
      }
      published := published + [Published(timer.event, now, timer.fires + 1)];
    }

    method Cancel()
      requires Valid()
      modifies this
      ensures Valid() && View() == Cancelled(old(View()))
    {
      OneMoreStep(window, armedAt, false, View(), Step.Cancel);
      cancelled := true;
      timers := map[];
    }

    method Elapse(ms: nat)
      requires Valid()
      modifies this
      ensures Valid() && View() == old(View()).(now := old(now) + ms)
    {
      OneMoreStep(window, armedAt, false, View(), Tick(ms));
      now := now + ms;
    }
  }

  // ---- runs ----

  datatype Step = Tick(ms: nat) | Fire(id: nat) | Cancel

  /** A timer may fire at any time: drift and early wake-ups included. */
  predicate Enabled(s: Sys, step: Step) {
    step.Fire? ==> step.id in s.timers
  }

  /** Exact timers fire when they are due, not earlier and not later. */
  predicate Exact(s: Sys, step: Step) {
    match step
    case Tick(ms) => forall id {:trigger s.timers[id]} | id in s.timers :: s.now + ms <= s.timers[id].due
    case Fire(id) => id in s.timers && s.timers[id].due == s.now
    case Cancel => true
  }

  function Apply(s: Sys, step: Step): Sys
    requires Enabled(s, step)
  {
    match step
    case Tick(ms) => s.(now := s.now + ms)
    case Fire(id) => Fired(s, id)
    case Cancel => Cancelled(s)
  }

  ghost predicate ValidRun(exact: bool, s: Sys, steps: seq<Step>)
    decreases |steps|
  {
    steps != [] ==>
        Enabled(s, steps[0]) && (exact ==> Exact(s, steps[0])) && ValidRun(exact, Apply(s, steps[0]), steps[1..])
  }

  ghost function After(exact: bool, s: Sys, steps: seq<Step>): Sys
    requires ValidRun(exact, s, steps)
    decreases |steps|
  {
    if steps == [] then s else After(exact, Apply(s, steps[0]), steps[1..])
  }

  ghost predicate Reachable(w: Window, armedAt: int, exact: bool, s: Sys) {
    exists steps :: ValidRun(exact, Started(w, armedAt), steps) && After(exact, Started(w, armedAt), steps) == s
  }

  predicate IsPublished(s: Sys, e: Event) {
    exists k :: 0 <= k < |s.published| && s.published[k].event == e
  }

  predicate IsArmed(s: Sys, e: Event) {
    exists id :: id in s.timers && s.timers[id].event == e
  }

  /** One live timer per future boundary until it is published, none otherwise. */
  ghost predicate Chains(s: Sys) {
    && s.armedAt <= s.now
    && (forall id {:trigger s.timers[id]} | id in s.timers ::
          && id < s.nextTimer
          && s.armedAt < Boundary(s.window, s.timers[id].event)
          && !IsPublished(s, s.timers[id].event)
          && 0 < s.timers[id].due - s.timers[id].setAt <= MAX_TIMEOUT_MS
          && s.timers[id].due <= Boundary(s.window, s.timers[id].event))
    && (forall a, b {:trigger s.timers[a], s.timers[b]} |
          a in s.timers && b in s.timers && s.timers[a].event == s.timers[b].event :: a == b)
    && (s.cancelled ==> s.timers == map[])
  }

  ghost predicate Publications(s: Sys) {
    && (forall j, k {:trigger s.published[j], s.published[k]} | 0 <= j < k < |s.published| ::
          s.published[j].event != s.published[k].event)
    && (forall k {:trigger s.published[k]} | 0 <= k < |s.published| ::
          s.armedAt < Boundary(s.window, s.published[k].event) <= s.published[k].at <= s.now)
    && (forall j, k {:trigger s.published[j], s.published[k]} | 0 <= j < k < |s.published| ::
          s.published[j].at <= s.published[k].at)
  }

  ghost predicate NothingForgotten(s: Sys) {
    !s.cancelled ==> forall e: Event {:trigger IsArmed(s, e)} ::
        s.armedAt < Boundary(s.window, e) ==> IsArmed(s, e) || IsPublished(s, e)
  }

  /** After `n` full chunks, or as much as there is. */
  function Reached(s: Sys, e: Event, n: nat): int {
    s.armedAt + Min(n * MAX_TIMEOUT_MS, Boundary(s.window, e) - s.armedAt)
  }

  ghost predicate ExactChains(s: Sys) {
    && (forall id {:trigger s.timers[id]} | id in s.timers ::
          && s.now <= s.timers[id].due
          && s.timers[id].fires * MAX_TIMEOUT_MS < Boundary(s.window, s.timers[id].event) - s.armedAt
          && s.timers[id].due == Reached(s, s.timers[id].event, s.timers[id].fires + 1))
    && (forall k {:trigger s.published[k]} | 0 <= k < |s.published| ::
          var d := Boundary(s.window, s.published[k].event) - s.armedAt;
          && s.published[k].at == s.armedAt + d
          && (s.published[k].wakes - 1) * MAX_TIMEOUT_MS < d <= s.published[k].wakes * MAX_TIMEOUT_MS)
  }

  ghost predicate Inv(exact: bool, s: Sys) {
    Chains(s) && Publications(s) && NothingForgotten(s) && (exact ==> ExactChains(s))
  }

  lemma {:induction false} ArmingOne(s: Sys, e: Event)
    requires Chains(s) && s.published == [] && s.now == s.armedAt && !s.cancelled && !IsArmed(s, e)
    ensures Chains(ArmedFor(s, e))
  {
    var t := ArmedFor(s, e);
    if s.now < Boundary(s.window, e) {
      assert t.timers == s.timers[s.nextTimer := Armed(e, s.now, t.timers[s.nextTimer].due, 0)];
      assert 0 < t.timers[s.nextTimer].due - s.now <= MAX_TIMEOUT_MS;
      assert forall o: Event :: !IsPublished(t, o);
    }
  }

  lemma {:induction false} ArmingOneExactly(s: Sys, e: Event)
    requires ExactChains(s) && s.published == [] && s.now == s.armedAt
    ensures ExactChains(ArmedFor(s, e))
  {
  }

  lemma {:induction false} ArmsThatOne(s: Sys, e: Event)
    requires forall id {:trigger s.timers[id]} | id in s.timers :: id < s.nextTimer
    ensures var t := ArmedFor(s, e);
            && (s.now < Boundary(s.window, e) ==> IsArmed(t, e))
            && (forall o: Event {:trigger IsArmed(t, o)} :: o != e ==> (IsArmed(t, o) <==> IsArmed(s, o)))
  {
    var t := ArmedFor(s, e);
    if s.now < Boundary(s.window, e) {
      assert t.timers[s.nextTimer].event == e;
    }
    forall o: Event | o != e ensures IsArmed(t, o) <==> IsArmed(s, o) {
      if IsArmed(s, o) {
        var id :| id in s.timers && s.timers[id].event == o;
        assert t.timers[id].event == o;
      }
    }
  }

  lemma {:induction false} StartInv(w: Window, now: int)
    ensures Inv(true, Started(w, now))
  {
    var none := Sys(w, now, now, map[], 0, false, []);
    ArmingOne(none, SaleStarted);
    ArmingOneExactly(none, SaleStarted);
    ArmingOneExactly(ArmedFor(none, SaleStarted), SaleEnded);
    ArmsThatOne(none, SaleStarted);
    ArmingOne(ArmedFor(none, SaleStarted), SaleEnded);
    ArmsThatOne(ArmedFor(none, SaleStarted), SaleEnded);
  }

  lemma {:induction false} PublishedGrows(s: Sys, p: Published, e: Event)
    ensures IsPublished(s.(published := s.published + [p]), e) <==> IsPublished(s, e) || p.event == e
  {
    var t := s.(published := s.published + [p]);
    if IsPublished(s, e) {
      var k :| 0 <= k < |s.published| && s.published[k].event == e;
      assert t.published[k].event == e;
    }
    if p.event == e {
      assert t.published[|s.published|].event == e;
    }
  }

  lemma {:induction false} FireKeepsChains(s: Sys, id: nat)
    requires Chains(s) && Publications(s) && id in s.timers
    ensures Chains(Fired(s, id))
  {
    var timer := s.timers[id];
    var t := Fired(s, id);
    forall e: Event ensures IsPublished(t, e) ==>
        IsPublished(s, e) || (t.timers == s.timers - {id} && e == timer.event) {
      PublishedGrows(s, Published(timer.event, s.now, timer.fires + 1), e);
      if t.published == s.published && IsPublished(t, e) {
        var k :| 0 <= k < |t.published| && t.published[k].event == e;
        assert s.published[k].event == e;
      }
    }
    assert !IsPublished(s, timer.event);
  }

  lemma {:induction false} FireKeepsPublications(s: Sys, id: nat)
    requires Chains(s) && Publications(s) && id in s.timers
    ensures Publications(Fired(s, id))
  {
    assert !IsPublished(s, s.timers[id].event);
  }

  lemma {:induction false} FireForgetsNothing(s: Sys, id: nat)
    requires Chains(s) && NothingForgotten(s) && id in s.timers
    ensures NothingForgotten(Fired(s, id))
  {
    var timer := s.timers[id];
    var t := Fired(s, id);
    forall e: Event | !t.cancelled && t.armedAt < Boundary(t.window, e) ensures IsArmed(t, e) || IsPublished(t, e) {
      assert IsArmed(s, e) || IsPublished(s, e);
      PublishedGrows(s, Published(timer.event, s.now, timer.fires + 1), e);
      if IsPublished(s, e) && t.published == s.published {
        var k :| 0 <= k < |s.published| && s.published[k].event == e;
        assert t.published[k].event == e;
      } else if e == timer.event {
        assert t.published == s.published ==> t.timers[s.nextTimer].event == e;
      } else if IsArmed(s, e) {
        var a :| a in s.timers && s.timers[a].event == e;
        assert t.timers[a].event == e;
      }
    }
  }

  lemma {:induction false} FireStaysExact(s: Sys, id: nat)
    requires Chains(s) && ExactChains(s) && id in s.timers && s.timers[id].due == s.now && !s.cancelled
    ensures ExactChains(Fired(s, id))
  {
  }

  lemma {:induction false} StepInv(exact: bool, s: Sys, step: Step)
    requires Inv(exact, s) && Enabled(s, step) && (exact ==> Exact(s, step))
    ensures Inv(exact, Apply(s, step))
  {
    var t := Apply(s, step);
    match step
    case Fire(id) =>
      FireKeepsChains(s, id);
      FireKeepsPublications(s, id);
      FireForgetsNothing(s, id);
      if exact {
        FireStaysExact(s, id);
      }
    case _ =>
      forall e: Event ensures IsPublished(t, e) <==> IsPublished(s, e) {
        assert t.published == s.published;
      }
      forall e: Event ensures step.Tick? && IsArmed(s, e) ==> IsArmed(t, e) {
      }
  }

  lemma {:induction false} RunInv(exact: bool, s: Sys, steps: seq<Step>)
    requires Inv(exact, s) && ValidRun(exact, s, steps)
    ensures Inv(exact, After(exact, s, steps))
    ensures After(exact, s, steps).window == s.window && After(exact, s, steps).armedAt == s.armedAt
    decreases |steps|
  {
    if steps != [] {
      StepInv(exact, s, steps[0]);
      RunInv(exact, Apply(s, steps[0]), steps[1..]);
    }
  }

  lemma {:induction false} ReachableInv(w: Window, armedAt: int, exact: bool, s: Sys)
    requires Reachable(w, armedAt, exact, s)
    ensures Inv(exact, s) && s.window == w && s.armedAt == armedAt
  {
    var steps :| ValidRun(exact, Started(w, armedAt), steps) && After(exact, Started(w, armedAt), steps) == s;
    StartInv(w, armedAt);
    assert Inv(exact, Started(w, armedAt));
    RunInv(exact, Started(w, armedAt), steps);
  }

  lemma {:induction false} StartIsReachable(w: Window, armedAt: int, exact: bool)
    ensures Reachable(w, armedAt, exact, Started(w, armedAt))
  {
    var s := Started(w, armedAt);
    assert ValidRun(exact, s, []) && After(exact, s, []) == s;
  }

  lemma {:induction false} OneMoreStep(w: Window, armedAt: int, exact: bool, s: Sys, step: Step)
    requires Reachable(w, armedAt, exact, s) && Enabled(s, step) && (exact ==> Exact(s, step))
    ensures Reachable(w, armedAt, exact, Apply(s, step))
  {
    var steps :| ValidRun(exact, Started(w, armedAt), steps) && After(exact, Started(w, armedAt), steps) == s;
    RunAppend(exact, Started(w, armedAt), steps, step);
  }

  lemma {:induction false} RunAppend(exact: bool, s: Sys, steps: seq<Step>, step: Step)
    requires ValidRun(exact, s, steps)
    requires Enabled(After(exact, s, steps), step) && (exact ==> Exact(After(exact, s, steps), step))
    ensures ValidRun(exact, s, steps + [step]) && After(exact, s, steps + [step]) == Apply(After(exact, s, steps), step)
    decreases |steps|
  {
    var more := steps + [step];
    if steps == [] {
      assert more[1..] == [];
    } else {
      RunAppend(exact, Apply(s, steps[0]), steps[1..], step);
      assert more[1..] == steps[1..] + [step];
    }
  }

  // ---- what every run guarantees ----

  /** Whatever the timers do: at most once, never early, and never for a boundary
      that had passed when the timers were armed. The start of the window is
      announced as sale.started, its end as sale.ended. */
  lemma {:induction false} OnceAndNeverEarly(w: Window, armedAt: int, s: Sys, j: nat, k: nat)
    requires Reachable(w, armedAt, false, s) && j < |s.published| && k < |s.published|
    ensures s.published[j].event == s.published[k].event ==> j == k
    ensures s.published[k].event == SaleStarted ==> armedAt < w.startMs <= s.published[k].at <= s.now
    ensures s.published[k].event == SaleEnded ==> armedAt < w.endMs <= s.published[k].at <= s.now
  {
    ReachableInv(w, armedAt, false, s);
  }

  /** Every armed delay is within the platform's ceiling and a future boundary has
      exactly one timer until it is published. */
  lemma {:induction false} OneTimerPerBoundary(w: Window, armedAt: int, s: Sys)
    requires Reachable(w, armedAt, false, s) && !s.cancelled
    ensures IsArmed(s, SaleStarted) <==> armedAt < w.startMs && !IsPublished(s, SaleStarted)
    ensures IsArmed(s, SaleEnded) <==> armedAt < w.endMs && !IsPublished(s, SaleEnded)
    ensures forall a, b {:trigger s.timers[a], s.timers[b]} ::
              a in s.timers && b in s.timers && s.timers[a].event == s.timers[b].event ==> a == b
    ensures forall id {:trigger s.timers[id]} | id in s.timers ::
              0 < s.timers[id].due - s.timers[id].setAt <= 2_147_483_647
  {
    ReachableInv(w, armedAt, false, s);
    assert armedAt < Boundary(w, SaleStarted) ==> IsArmed(s, SaleStarted) || IsPublished(s, SaleStarted);
    assert armedAt < Boundary(w, SaleEnded) ==> IsArmed(s, SaleEnded) || IsPublished(s, SaleEnded);
  }

  /** However late it is, a wake-up at or after its boundary announces it, and an
      earlier one announces nothing and waits on. */
  lemma {:induction false} WakeUpAnnouncesIffDue(w: Window, armedAt: int, s: Sys, id: nat)
    requires Reachable(w, armedAt, false, s) && id in s.timers
    ensures var e, t := s.timers[id].event, Apply(s, Fire(id));
            var due := if e == SaleEnded then w.endMs <= s.now else w.startMs <= s.now;
            && (IsPublished(t, e) <==> due) && (IsArmed(t, e) <==> !due)
  {
    ReachableInv(w, armedAt, false, s);
    var e, t := s.timers[id].event, Apply(s, Fire(id));
    OneMoreStep(w, armedAt, false, s, Fire(id));
    OneTimerPerBoundary(w, armedAt, s);
    OneTimerPerBoundary(w, armedAt, t);
    PublishedGrows(s, Published(e, s.now, s.timers[id].fires + 1), e);
    assert t.published == s.published && IsPublished(t, e) ==> IsPublished(s, e);
  }

  /** So whatever the timers did so far, a boundary that is still ahead or was slept
      through is announced by the next wake-up at or after it. */
  lemma {:induction false} CanStillBeAnnounced(w: Window, armedAt: int, s: Sys, id: nat)
    requires Reachable(w, armedAt, false, s) && id in s.timers
    ensures var e := s.timers[id].event;
            var wait := (if e == SaleEnded then w.endMs else w.startMs) - s.now;
            var steps := [Tick(if wait > 0 then wait else 0), Fire(id)];
            ValidRun(false, s, steps) && IsPublished(After(false, s, steps), e)
  {
    ReachableInv(w, armedAt, false, s);
    var wait := Boundary(w, s.timers[id].event) - s.now;
    var a, b := Tick(if wait > 0 then wait else 0), Fire(id);
    OneMoreStep(w, armedAt, false, s, a);
    var t := Apply(s, a);
    WakeUpAnnouncesIffDue(w, armedAt, t, id);
    var u := Apply(t, b);
    assert [a, b][1..] == [b] && [b][1..] == [];
    assert ValidRun(false, u, []) && After(false, u, []) == u;
    assert ValidRun(false, t, [b]) && After(false, t, [b]) == u;
  }

  /** Nothing is published after `cancel`. */
  lemma {:induction false} SilentAfterCancel(s: Sys, steps: seq<Step>)
    requires ValidRun(false, Cancelled(s), steps)
    ensures After(false, Cancelled(s), steps).published == s.published
  {
    StaysSilent(Cancelled(s), steps);
  }

  lemma {:induction false} StaysSilent(s: Sys, steps: seq<Step>)
    requires s.cancelled && ValidRun(false, s, steps)
    ensures After(false, s, steps).published == s.published
    decreases |steps|
  {
    if steps != [] {
      StaysSilent(Apply(s, steps[0]), steps[1..]);
    }
  }

  function CeilDiv(a: int, b: int): int
    requires b > 0
  {
    (a + b - 1) / b
  }

  /** With exact timers a boundary d ms away is announced exactly then, after
      exactly ceil(d / MAX_TIMEOUT_MS) wake-ups. */
  lemma {:induction false} ExactTimersTakeCeilWakeUps(w: Window, armedAt: int, s: Sys, k: nat)
    requires Reachable(w, armedAt, true, s) && k < |s.published|
    ensures s.published[k].event == SaleStarted ==>
              s.published[k].at == w.startMs && s.published[k].wakes == CeilDiv(w.startMs - armedAt, 2_147_483_647)
    ensures s.published[k].event == SaleEnded ==>
              s.published[k].at == w.endMs && s.published[k].wakes == CeilDiv(w.endMs - armedAt, 2_147_483_647)
  {
    ReachableInv(w, armedAt, true, s);
    assert ExactChains(s);
  }

  /** And it is announced: past the boundary no exact run is still waiting. */
  lemma {:induction false} ExactTimersPublish(w: Window, armedAt: int, s: Sys)
    requires Reachable(w, armedAt, true, s) && !s.cancelled
    ensures armedAt < w.startMs < s.now ==> IsPublished(s, SaleStarted)
    ensures armedAt < w.endMs < s.now ==> IsPublished(s, SaleEnded)
  {
    ReachableInv(w, armedAt, true, s);
    assert armedAt < w.startMs ==> IsArmed(s, SaleStarted) || IsPublished(s, SaleStarted);
    assert armedAt < w.endMs ==> IsArmed(s, SaleEnded) || IsPublished(s, SaleEnded);
  }

  /** The start is announced before the end. */
  lemma {:induction false} StartComesFirst(w: Window, armedAt: int, s: Sys, j: nat, k: nat)
    requires Reachable(w, armedAt, true, s) && w.startMs < w.endMs && j < |s.published| && k < |s.published|
    requires s.published[j].event == SaleStarted && s.published[k].event == SaleEnded
    ensures j < k
  {
    ReachableInv(w, armedAt, true, s);
    ExactTimersTakeCeilWakeUps(w, armedAt, s, j);
    ExactTimersTakeCeilWakeUps(w, armedAt, s, k);
  }
}

/**
 The client's realtime channel (client/src/hooks/useSaleStatus.ts): one mount
 with one slug, as an event loop over stream events, settling fetches and timers.
 */
module SaleStatusHook {
  import opened Ids
  import opened SaleStatus

  const WATCHDOG_SILENCE_MS := 40_000
  const WATCHDOG_INTERVAL_MS := 10_000

  datatype Channel = Connecting | Live | Degraded | Offline

  datatype ReadyState = CONNECTING | OPEN | CLOSED

  /** A status body and the server instant it was read at. */
  datatype Reading = Reading(body: Body, readAt: int)

  /** A reconnect timer remembers when and for which retry it was armed. */
  datatype Timer = Poll | Reconnect(retry: nat, armedAt: int, wakesAt: real) | Watchdog(due: int) | Deadline

  /** Why a GET is in flight: the cold-load poll, a poll that carries the page,
      the re-sync of a recovery, or one the page asked for. */
  datatype Fetch = ColdPoll | FallbackPoll | Resync | Refetch

  datatype Answer = Ok(reading: Reading) | NotFound | Failed

  /** Timers and fetches of the page; `streams` counts the streams ever opened and
      `random` is what the next call of the random generator returns. */
  datatype Browser = Browser(
    now: int,
    random: real,
    timers: map<nat, Timer>,
    nextTimer: nat,
    fetches: map<nat, Fetch>,
    nextFetch: nat,
    streams: nat)

  datatype Sys = Sys(
    browser: Browser,
    channel: Channel,
    mounted: bool,
    notFound: bool,
    source: Option<ReadyState>,
    pollTimer: Option<nat>,
    reconnectTimer: Option<nat>,
    attempts: nat,
    lastActivity: int,
    body: Option<Reading>,
    watchdog: nat,
    deadline: nat)

  // ---- the reconnect backoff ----

  const RECONNECT_BASE_MS := 1_000.0
  const RECONNECT_MAX_MS := 30_000.0

  /** The base, doubled once per attempt. */
  function Wanted(attempts: nat): (r: real)
    ensures r >= RECONNECT_BASE_MS
  {
    if attempts == 0 then RECONNECT_BASE_MS else 2.0 * Wanted(attempts - 1)
  }

  function Capped(attempts: nat): real {
    if Wanted(attempts) <= RECONNECT_MAX_MS then Wanted(attempts) else RECONNECT_MAX_MS
  }

  function Share(fraction: real, whole: real): (r: real)
    ensures 0.0 <= fraction < 1.0 && whole > 0.0 ==> 0.0 <= r < whole
  {
    assert 0.0 <= fraction < 1.0 && whole > 0.0 ==> (1.0 - fraction) * whole > 0.0;
    fraction * whole
  }

  /** Equal jitter: half of the capped delay is certain, half is random. */
  function ReconnectDelay(attempts: nat, random: real): real {
    Capped(attempts) / 2.0 + Share(random, Capped(attempts) / 2.0)
  }

  /** The wait is at least half a second, always under the maximum, and doubles
      until the fifth retry. */
  lemma {:induction false} ReconnectDelayBounds(attempts: nat, random: real)
    requires 0.0 <= random < 1.0
    ensures 500.0 <= ReconnectDelay(attempts, random) < 30_000.0
    ensures ReconnectDelay(attempts, random) == Capped(attempts) / 2.0 + random * (Capped(attempts) / 2.0)
    ensures Capped(attempts) / 2.0 <= ReconnectDelay(attempts, random) < Capped(attempts)
    ensures Capped(0) == 1_000.0
    ensures Capped(attempts + 1) == if attempts < 4 then 2.0 * Capped(attempts) else 30_000.0
  {
    CappedLaw(attempts);
    var share := Share(random, Capped(attempts) / 2.0);
    assert 0.0 <= share < Capped(attempts) / 2.0;
  }

  lemma {:induction false} CappedLaw(attempts: nat)
    ensures RECONNECT_BASE_MS <= Capped(attempts) <= RECONNECT_MAX_MS
    ensures Capped(attempts + 1) == if attempts < 4 then 2.0 * Capped(attempts) else RECONNECT_MAX_MS
  {
    assert Wanted(0) == 1_000.0 && Wanted(1) == 2_000.0 && Wanted(2) == 4_000.0;
    assert Wanted(3) == 8_000.0 && Wanted(4) == 16_000.0;
    if attempts >= 4 {
      SoonAtMost(attempts + 1);
    }
  }

  lemma {:induction false} SoonAtMost(attempts: nat)
    requires attempts >= 5
    ensures Wanted(attempts) >= 32_000.0
  {
    if attempts == 5 {
      assert Wanted(1) == 2_000.0 && Wanted(2) == 4_000.0 && Wanted(3) == 8_000.0 && Wanted(4) == 16_000.0;
    } else {
      SoonAtMost(attempts - 1);
    }
  }

  // ---- the handlers on values ----

  function ReconnectTimer(b: Browser, attempts: nat): Timer {
    Reconnect(attempts, b.now, b.now as real + ReconnectDelay(attempts, b.random))
  }

  function Armed(b: Browser, timer: Timer): Browser {
    b.(timers := b.timers[b.nextTimer := timer], nextTimer := b.nextTimer + 1)
  }

  function Without(b: Browser, id: Option<nat>): Browser {
    if id.Some? then b.(timers := b.timers - {id.value}) else b
  }

  function Fetching(b: Browser, fetch: Fetch): Browser {
    b.(fetches := b.fetches[b.nextFetch := fetch], nextFetch := b.nextFetch + 1)
  }

  function PollingStopped(s: Sys): Sys {
    s.(browser := Without(s.browser, s.pollTimer), pollTimer := None)
  }

  function ReconnectStopped(s: Sys): Sys {
    s.(browser := Without(s.browser, s.reconnectTimer), reconnectTimer := None)
  }

  /** Terminal: tear down polling, reconnecting and the stream. The watchdog and a
      still pending deadline stay armed and find nothing to do. */
  function MarkedNotFound(s: Sys): Sys {
    if s.notFound then s
    else ReconnectStopped(PollingStopped(s.(notFound := true))).(source := None)
  }

  function StreamOpened(s: Sys): Sys {
    if s.notFound then s
    else
      s.(source := Some(CONNECTING), lastActivity := s.browser.now,
         browser := s.browser.(streams := s.browser.streams + 1))
  }

  function PolledOnce(s: Sys, fromFallback: bool): Sys {
    if s.notFound then s else s.(browser := Fetching(s.browser, if fromFallback then FallbackPoll else ColdPoll))
  }

  function FallbackStarted(s: Sys): Sys {
    if s.notFound || s.pollTimer.Some? then s
    else
      var t := PolledOnce(s, true);
      t.(browser := Armed(t.browser, Poll), pollTimer := Some(t.browser.nextTimer))
  }

  function ReconnectScheduled(s: Sys): Sys {
    if s.notFound || s.reconnectTimer.Some? then s
    else
      s.(browser := Armed(s.browser, ReconnectTimer(s.browser, s.attempts)),
         reconnectTimer := Some(s.browser.nextTimer))
  }

  function Carried(s: Sys): Sys {
    ReconnectScheduled(FallbackStarted(s))
  }

  function Opened(s: Sys): Sys {
    var t := s.(source := Some(OPEN));
    if !t.mounted || t.notFound then t
    else
      var recovering := t.channel.Degraded? || t.channel.Offline?;
      var u := PollingStopped(ReconnectStopped(t.(lastActivity := t.browser.now, attempts := 0)).(channel := Live));
      if recovering then u.(browser := Fetching(u.browser, Resync)) else u
  }

  /** A recoverable error leaves the source to the browser's own retry. */
  function Errored(s: Sys, fatal: bool): Sys {
    var t := s.(source := Some(if fatal then CLOSED else CONNECTING));
    if !t.mounted || t.notFound then t
    else
      Carried(
        t.(channel := if t.channel.Live? then Degraded else t.channel,
           source := if fatal then None else t.source))
  }

  /** The stream's writes always land; a malformed frame only marks activity. */
  function FrameArrived(s: Sys, next: Option<Reading>): Sys {
    var t := s.(lastActivity := s.browser.now);
    if next.Some? && t.mounted then t.(body := next) else t
  }

  function PollSettled(s: Sys, fromFallback: bool, answer: Answer): Sys {
    if !s.mounted then s
    else
      match answer
      case Ok(reading) =>
        if s.channel.Live? then s
        else s.(body := Some(reading), channel := if fromFallback then Degraded else s.channel)
      case NotFound => MarkedNotFound(s)
      case Failed =>
        if s.channel.Live? then s
        else if fromFallback then s.(channel := Offline)
        else Carried(s)
  }

  function FetchSettled(s: Sys, id: nat, answer: Answer): Sys
    requires id in s.browser.fetches
  {
    var t := s.(browser := s.browser.(fetches := s.browser.fetches - {id}));
    match s.browser.fetches[id]
    case ColdPoll => PollSettled(t, false, answer)
    case FallbackPoll => PollSettled(t, true, answer)
    case Resync => if answer.Ok? && t.mounted then t.(body := Some(answer.reading)) else t
    case Refetch => if answer.Ok? && t.mounted && !t.channel.Live? then t.(body := Some(answer.reading)) else t
  }

  /** The reconnect timer's callback. */
  function Attempted(s: Sys): Sys {
    var t := s.(reconnectTimer := None);
    if !t.mounted || t.notFound || t.channel.Live? then t
    else
      var u := if t.source == Some(CONNECTING) then t else StreamOpened(t);
      u.(attempts := u.attempts + 1, browser := Armed(u.browser, ReconnectTimer(u.browser, u.attempts + 1)),
         reconnectTimer := Some(u.browser.nextTimer))
  }

  function WatchdogBarked(s: Sys): Sys {
    if !s.mounted || s.notFound then s
    else if s.channel.Live? && s.browser.now - s.lastActivity > WATCHDOG_SILENCE_MS then
      Carried(s.(source := None, channel := Degraded))
    else s
  }

  function DeadlinePassed(s: Sys): Sys {
    if s.mounted && s.channel.Connecting? && !s.notFound then Carried(s) else s
  }

  function TimerFired(s: Sys, id: nat): Sys
    requires id in s.browser.timers
  {
    match s.browser.timers[id]
    case Poll => PolledOnce(s, true)
    case Reconnect(_, _, _) => Attempted(s.(browser := Without(s.browser, Some(id))))
    case Deadline => DeadlinePassed(s.(browser := Without(s.browser, Some(id))))
    case Watchdog(due) =>
      WatchdogBarked(s.(browser := s.browser.(timers := s.browser.timers[id := Watchdog(due + WATCHDOG_INTERVAL_MS)])))
  }

  function Refetched(s: Sys): Sys {
    if s.notFound then s else s.(browser := Fetching(s.browser, Refetch))
  }

  function Unmounted(s: Sys): Sys {
    var t := s.(mounted := false, browser := Without(Without(s.browser, Some(s.deadline)), Some(s.watchdog)));
    PollingStopped(ReconnectStopped(t)).(source := None)
  }

  /** Cold load: stream and poll race for the first paint. */
  function Mounted(now: int, random: real): Sys {
    var b := Armed(Browser(now, random, map[], 0, map[], 0, 0), Watchdog(now + WATCHDOG_INTERVAL_MS));
    var s := Sys(b, Connecting, true, false, None, None, None, 0, now, None, 0, 1);
    var t := PolledOnce(StreamOpened(s), false);
    t.(browser := Armed(t.browser, Deadline))
  }

  // ---- the hook as the page runs it ----

  class Hook {
    var browser: Browser
    var channel: Channel
    var mounted: bool
    var notFound: bool
    var source: Option<ReadyState>
    var pollTimer: Option<nat>
    var reconnectTimer: Option<nat>
    var attempts: nat
    var lastActivity: int
    var body: Option<Reading>
    var watchdog: nat
    var deadline: nat

    function View(): Sys
      reads this
    {
      Sys(browser, channel, mounted, notFound, source, pollTimer, reconnectTimer, attempts, lastActivity, body,
          watchdog, deadline)
    }

    /** Some run of the page led here, so every run theorem below holds. */
    ghost predicate Valid()
      reads this
    {
      Reachable(false, View())
    }

    constructor (now: int, random: real)
      requires 0.0 <= random < 1.0
      ensures Valid() && View() == Mounted(now, random)
    {
      browser := Browser(now, random, map[], 0, map[], 0, 0);
      channel, mounted, notFound, source := Connecting, true, false, None;
      pollTimer, reconnectTimer, attempts, lastActivity, body := None, None, 0, now, None;
      watchdog, deadline := 0, 1;
      new;
      browser := Armed(browser, Watchdog(now + WATCHDOG_INTERVAL_MS));
      OpenStream();
      PollOnce(false);
      browser := Armed(browser, Deadline);
      MountIsReachable(now, random);
    }

    method StopPolling()
      modifies `browser, `pollTimer
      ensures pollTimer.None? && browser == Without(old(browser), old(pollTimer))
    {
      if pollTimer.Some? {
        browser := browser.(timers := browser.timers - {pollTimer.value});
        pollTimer := None;
      }
    }

    method StopReconnect()
      modifies `browser, `reconnectTimer
      ensures reconnectTimer.None? && browser == Without(old(browser), old(reconnectTimer))
    {
      if reconnectTimer.Some? {
        browser := browser.(timers := browser.timers - {reconnectTimer.value});
        reconnectTimer := None;
      }
    }

    method MarkNotFound()
      modifies `browser, `notFound, `pollTimer, `reconnectTimer, `source
      ensures View() == MarkedNotFound(old(View()))
    {
      if notFound {
        return;
      }
      notFound := true;
      StopPolling();
      StopReconnect();
      source := None;
    }

    method OpenStream()
      modifies `browser, `source, `lastActivity
      ensures View() == StreamOpened(old(View()))
    {
      if notFound {
        return;
      }
      source := None;
      lastActivity := browser.now;
      source := Some(CONNECTING);
      browser := browser.(streams := browser.streams + 1);
    }

    method PollOnce(fromFallback: bool)
      modifies `browser
      ensures View() == PolledOnce(old(View()), fromFallback)
    {
      if notFound {
        return;
      }
      browser := Fetching(browser, if fromFallback then FallbackPoll else ColdPoll);
    }

    method StartFallback()
      modifies `browser, `pollTimer
      ensures View() == FallbackStarted(old(View()))
    {
      if notFound || pollTimer.Some? {
        return;
      }
      PollOnce(true);
      pollTimer := Some(browser.nextTimer);
      browser := Armed(browser, Poll);
    }

    method ScheduleReconnect()
      modifies `browser, `reconnectTimer
      ensures View() == ReconnectScheduled(old(View()))
    {
      if notFound || reconnectTimer.Some? {
        return;
      }
      reconnectTimer := Some(browser.nextTimer);
      browser := Armed(browser, ReconnectTimer(browser, attempts));
    }

    method OnOpen()
      modifies this
      ensures View() == Opened(old(View()))
    {
      source := Some(OPEN);
      if !mounted || notFound {
        return;
      }
      lastActivity := browser.now;
      attempts := 0;
      StopReconnect();
      var recovering := channel.Degraded? || channel.Offline?;
      channel := Live;
      StopPolling();
      if recovering {
        browser := Fetching(browser, Resync);
      }
    }

    method OnError(fatal: bool)
      modifies this
      ensures View() == Errored(old(View()), fatal)
    {
      source := Some(if fatal then CLOSED else CONNECTING);
      if !mounted || notFound {
        return;
      }
      if channel.Live? {
        channel := Degraded;
      }
      if source != Some(CONNECTING) {
        source := None;
      }
      StartFallback();
      ScheduleReconnect();
    }

    method OnStatus(next: Option<Reading>)
      modifies this
      ensures View() == FrameArrived(old(View()), next)
    {
      lastActivity := browser.now;
      if next.Some? && mounted {
        body := next;
      }
    }

    method OnPollSettled(fromFallback: bool, answer: Answer)
      modifies this
      ensures View() == PollSettled(old(View()), fromFallback, answer)
    {
      if !mounted {
        return;
      }
      match answer
      case Ok(reading) =>
        if channel.Live? {
          return;
        }
        body := Some(reading);
        if fromFallback {
          channel := Degraded;
        }
      case NotFound => MarkNotFound();
      case Failed =>
        if channel.Live? {
          return;
        }
        if fromFallback {
          channel := Offline;
        } else {
          StartFallback();
          ScheduleReconnect();
        }
    }

    method OnFetchSettled(id: nat, answer: Answer)
      requires id in browser.fetches
      modifies this
      ensures View() == FetchSettled(old(View()), id, answer)
    {
      var fetch := browser.fetches[id];
      browser := browser.(fetches := browser.fetches - {id});
      match fetch
      case ColdPoll => OnPollSettled(false, answer);
      case FallbackPoll => OnPollSettled(true, answer);
      case Resync =>
        if answer.Ok? && mounted {
          body := Some(answer.reading);
        }
      case Refetch =>
        if answer.Ok? && mounted && !channel.Live? {
          body := Some(answer.reading);
        }
    }

    method Attempt()
      modifies this
      ensures View() == Attempted(old(View()))
    {
      reconnectTimer := None;
      if !mounted || notFound || channel.Live? {
        return;
      }
      if source != Some(CONNECTING) {
        OpenStream();
      }
      attempts := attempts + 1;
      reconnectTimer := Some(browser.nextTimer);
      browser := Armed(browser, ReconnectTimer(browser, attempts));
    }

    method OnTimer(id: nat)
      requires id in browser.timers
      modifies this
      ensures View() == TimerFired(old(View()), id)
      ensures old(browser.timers[id]).Reconnect? && mounted && !notFound && !old(channel).Live? ==>
                && source == Some(CONNECTING)
                && browser.streams == old(browser.streams) + if old(source) == Some(CONNECTING) then 0 else 1
    {
      match browser.timers[id]
      case Poll => PollOnce(true);
      case Reconnect(_, _, _) =>
        browser := Without(browser, Some(id));
        Attempt();
      case Deadline =>
        browser := Without(browser, Some(id));
        if mounted && channel.Connecting? && !notFound {
          StartFallback();
          ScheduleReconnect();
        }
      case Watchdog(due) =>
        browser := browser.(timers := browser.timers[id := Watchdog(due + WATCHDOG_INTERVAL_MS)]);
        if mounted && !notFound && channel.Live? && browser.now - lastActivity > WATCHDOG_SILENCE_MS {
          source := None;
          channel := Degraded;
          StartFallback();
          ScheduleReconnect();
        }
    }

    method OnRefetch()
      modifies this
      ensures View() == Refetched(old(View()))
    {
      if notFound {
        return;
      }
      browser := Fetching(browser, Refetch);
    }

    method Unmount()
      modifies this
      ensures View() == Unmounted(old(View()))
    {
      mounted := false;
      browser := Without(Without(browser, Some(deadline)), Some(watchdog));
      StopReconnect();
      StopPolling();
      source := None;
    }

    /** One turn of the page's event loop. Keeps the object on a run of the machine. */
    method Turn(step: Step)
      requires Valid() && Enabled(View(), step)
      modifies this
      ensures Valid() && View() == Apply(old(View()), step)
    {
      OneMoreStep(false, View(), step);
      match step
      case Tick(ms) => browser := browser.(now := browser.now + ms);
      case Rolls(random) => browser := browser.(random := random);
      case Opens => OnOpen();
      case Errors(fatal) => OnError(fatal);
      case FrameArrives(next) => OnStatus(next);
      case HeartbeatArrives => lastActivity := browser.now;
      case Settles(id, answer) => OnFetchSettled(id, answer);
      case TimerFires(id) => OnTimer(id);
      case Refetches => OnRefetch();
      case Unmounts => Unmount();
    }
  }

  // ---- runs ----

  datatype Step =
    | Tick(ms: nat)
    | Rolls(random: real)
    | Opens
    | Errors(fatal: bool)
    | FrameArrives(next: Option<Reading>)
    | HeartbeatArrives
    | Settles(id: nat, answer: Answer)
    | TimerFires(timer: nat)
    | Refetches
    | Unmounts

  predicate IsDue(timer: Timer, now: int) {
    match timer
    case Watchdog(due) => due <= now
    case Reconnect(_, _, wakesAt) => wakesAt <= now as real
    case _ => true
  }

  /** A closed source is silent; fetches come back at any time, the watchdog and a
      reconnect timer not before they are due. */
  predicate Enabled(s: Sys, step: Step) {
    match step
    case Rolls(random) => 0.0 <= random < 1.0
    case Opens => s.source == Some(CONNECTING)
    case Errors(_) => s.source.Some? && !s.source.value.CLOSED?
    case FrameArrives(_) => s.source == Some(OPEN)
    case HeartbeatArrives => s.source == Some(OPEN)
    case Settles(id, _) => id in s.browser.fetches
    case TimerFires(id) =>
      id in s.browser.timers && IsDue(s.browser.timers[id], s.browser.now)
    case Unmounts => s.mounted
    case _ => true
  }

  /** The watchdog is not late. */
  predicate OnTime(s: Sys, step: Step) {
    step.Tick? && s.watchdog in s.browser.timers && s.browser.timers[s.watchdog].Watchdog? ==>
      s.browser.now + step.ms <= s.browser.timers[s.watchdog].due
  }

  function Apply(s: Sys, step: Step): Sys
    requires Enabled(s, step)
  {
    match step
    case Tick(ms) => s.(browser := s.browser.(now := s.browser.now + ms))
    case Rolls(random) => s.(browser := s.browser.(random := random))
    case Opens => Opened(s)
    case Errors(fatal) => Errored(s, fatal)
    case FrameArrives(next) => FrameArrived(s, next)
    case HeartbeatArrives => s.(lastActivity := s.browser.now)
    case Settles(id, answer) => FetchSettled(s, id, answer)
    case TimerFires(id) => TimerFired(s, id)
    case Refetches => Refetched(s)
    case Unmounts => Unmounted(s)
  }

  ghost predicate ValidRun(punctual: bool, s: Sys, steps: seq<Step>)
    decreases |steps|
  {
    steps != [] ==>
        Enabled(s, steps[0]) && (punctual ==> OnTime(s, steps[0])) && ValidRun(punctual, Apply(s, steps[0]), steps[1..])
  }

  ghost function After(punctual: bool, s: Sys, steps: seq<Step>): Sys
    requires ValidRun(punctual, s, steps)
    decreases |steps|
  {
    if steps == [] then s else After(punctual, Apply(s, steps[0]), steps[1..])
  }

  ghost predicate Reachable(punctual: bool, s: Sys) {
    exists now, random, steps ::
      && 0.0 <= random < 1.0
      && ValidRun(punctual, Mounted(now, random), steps)
      && After(punctual, Mounted(now, random), steps) == s
  }

  // ---- the invariant, part by part ----

  /** Armed timers are exactly the four the hook can name. */
  ghost predicate TimersHeld(s: Sys) {
    && (s.pollTimer.Some? ==> s.pollTimer.value in s.browser.timers && s.browser.timers[s.pollTimer.value].Poll?)
    && (s.reconnectTimer.Some? ==>
         s.reconnectTimer.value in s.browser.timers && s.browser.timers[s.reconnectTimer.value].Reconnect?)
    && (s.mounted ==> s.watchdog in s.browser.timers && s.browser.timers[s.watchdog].Watchdog?)
    && s.watchdog < s.browser.nextTimer && s.deadline < s.browser.nextTimer && s.watchdog != s.deadline
    && s.pollTimer !in {Some(s.watchdog), Some(s.deadline)} && s.reconnectTimer !in {Some(s.watchdog), Some(s.deadline)}
    && (forall id {:trigger s.browser.timers[id]} | id in s.browser.timers ::
          && id < s.browser.nextTimer
          && match s.browser.timers[id]
             case Poll => s.pollTimer == Some(id)
             case Reconnect(_, _, _) => s.reconnectTimer == Some(id)
             case Watchdog(_) => id == s.watchdog
             case Deadline => id == s.deadline)
  }

  /** The page is alive: it may still change. */
  predicate Going(s: Sys) {
    s.mounted && !s.notFound
  }

  predicate BothArmed(s: Sys) {
    s.pollTimer.Some? && s.reconnectTimer.Some?
  }

  predicate DeadlineArmed(s: Sys) {
    s.deadline in s.browser.timers && s.browser.timers[s.deadline].Deadline?
  }

  /** Whatever the channel says, something will act next. */
  ghost predicate NeverStranded(s: Sys) {
    Going(s) ==>
      match s.channel
      case Live => s.pollTimer.None? && s.reconnectTimer.None? && s.source == Some(OPEN)
      case Connecting => BothArmed(s) || DeadlineArmed(s)
      case _ => BothArmed(s)
  }

  /** Both retry timers are armed together, and a poll that carries a connecting
      page was started along with them. */
  ghost predicate FallbackIsArmed(s: Sys) {
    && (Going(s) ==> (s.pollTimer.Some? <==> s.reconnectTimer.Some?))
    && (Going(s) && s.channel.Connecting? ==>
      forall id {:trigger s.browser.fetches[id]} | id in s.browser.fetches ::
          s.browser.fetches[id].FallbackPoll? ==> BothArmed(s))
  }

  /** Terminal states hold no stream, no poll and no reconnect timer, and an
      unmounted page no timer at all. */
  ghost predicate TornDown(s: Sys) {
    && (!Going(s) ==> s.source.None? && s.pollTimer.None? && s.reconnectTimer.None?)
    && (!s.mounted ==> s.browser.timers == map[])
  }

  ghost predicate WatchdogInTime(s: Sys) {
    && s.lastActivity <= s.browser.now
    && (s.mounted && s.watchdog in s.browser.timers && s.browser.timers[s.watchdog].Watchdog? ==>
          var due := s.browser.timers[s.watchdog].due;
          && due - WATCHDOG_INTERVAL_MS <= s.browser.now <= due
          && (Going(s) && s.channel.Live? ==> s.lastActivity >= due - WATCHDOG_INTERVAL_MS - WATCHDOG_SILENCE_MS))
  }

  /** An armed retry is that of the attempts made since the last open, and its
      delay was drawn for it. */
  ghost predicate RetryCounted(s: Sys) {
    && 0.0 <= s.browser.random < 1.0
    && forall id {:trigger s.browser.timers[id]} | id in s.browser.timers && s.browser.timers[id].Reconnect? ::
         s.browser.timers[id].retry == s.attempts && Backoff(s.browser.timers[id], s.browser.now)
  }

  predicate Backoff(timer: Timer, now: int)
    requires timer.Reconnect?
  {
    && timer.armedAt <= now
    && Capped(timer.retry) / 2.0 <= timer.wakesAt - timer.armedAt as real < Capped(timer.retry)
  }

  /** The next fetch is a new one. */
  ghost predicate FetchesNumbered(s: Sys) {
    forall id | id in s.browser.fetches :: id < s.browser.nextFetch
  }

  datatype Part = PTimers | PRetry | PFetches | PNeverStranded | PFallback | PTornDown | PWatchdog

  ghost predicate Holds(p: Part, s: Sys) {
    match p
    case PTimers => TimersHeld(s)
    case PRetry => RetryCounted(s)
    case PFetches => FetchesNumbered(s)
    case PNeverStranded => NeverStranded(s)
    case PFallback => FallbackIsArmed(s)
    case PTornDown => TornDown(s)
    case PWatchdog => WatchdogInTime(s)
  }

  ghost predicate Inv(punctual: bool, s: Sys) {
    forall p: Part {:trigger Holds(p, s)} :: (p.PWatchdog? ==> punctual) ==> Holds(p, s)
  }

  lemma {:induction false} TimersStopped(s: Sys)
    requires TimersHeld(s)
    ensures TimersHeld(PollingStopped(s)) && TimersHeld(ReconnectStopped(s))
  {
  }

  lemma {:induction false} TimersStoppedBoth(s: Sys)
    requires TimersHeld(s)
    ensures TimersHeld(PollingStopped(ReconnectStopped(s))) && TimersHeld(ReconnectStopped(PollingStopped(s)))
  {
    TimersStopped(s);
    TimersStopped(ReconnectStopped(s));
    TimersStopped(PollingStopped(s));
  }

  lemma {:induction false} TimersCarried(s: Sys)
    requires TimersHeld(s)
    ensures TimersHeld(Carried(s))
  {
    assert TimersHeld(FallbackStarted(s));
  }

  lemma {:induction false} TimersOpened(s: Sys)
    requires TimersHeld(s)
    ensures TimersHeld(Opened(s))
  {
    TimersStoppedBoth(s);
  }

  lemma {:induction false} TimersSettled(s: Sys, fromFallback: bool, answer: Answer)
    requires TimersHeld(s)
    ensures TimersHeld(PollSettled(s, fromFallback, answer))
  {
    if answer.NotFound? {
      TimersStoppedBoth(s.(notFound := true));
    } else {
      TimersCarried(s);
    }
  }

  lemma {:induction false} TimersAfterDeadline(s: Sys, id: nat)
    requires TimersHeld(s) && id in s.browser.timers && s.browser.timers[id].Deadline?
    ensures TimersHeld(TimerFired(s, id))
  {
    var t := s.(browser := Without(s.browser, Some(id)));
    assert TimersHeld(t);
    TimersCarried(t);
  }

  lemma {:induction false} TimersRearmed(s: Sys, due: int)
    requires TimersHeld(s) && s.watchdog in s.browser.timers
    ensures TimersHeld(s.(browser := s.browser.(timers := s.browser.timers[s.watchdog := Watchdog(due)])))
  {
  }

  lemma {:induction false} TimersBarked(s: Sys)
    requires TimersHeld(s)
    ensures TimersHeld(WatchdogBarked(s))
  {
    TimersCarried(s.(source := None, channel := Degraded));
  }

  lemma {:induction false} TimersAfterWatchdog(s: Sys, id: nat)
    requires TimersHeld(s) && id in s.browser.timers && s.browser.timers[id].Watchdog?
    ensures TimersHeld(TimerFired(s, id))
  {
    var due := s.browser.timers[id].due + WATCHDOG_INTERVAL_MS;
    TimersRearmed(s, due);
    TimersBarked(s.(browser := s.browser.(timers := s.browser.timers[id := Watchdog(due)])));
  }

  lemma {:induction false} TimersAttempted(s: Sys, id: nat)
    requires TimersHeld(s) && id in s.browser.timers && s.browser.timers[id].Reconnect?
    ensures TimersHeld(TimerFired(s, id))
  {
    assert TimersHeld(ReconnectStopped(s))
        && ReconnectStopped(s) == s.(browser := Without(s.browser, Some(id)), reconnectTimer := None);
  }

  lemma {:induction false} TimersFired(s: Sys, id: nat)
    requires TimersHeld(s) && id in s.browser.timers
    ensures TimersHeld(TimerFired(s, id))
  {
    match s.browser.timers[id]
    case Poll =>
    case Reconnect(_, _, _) => TimersAttempted(s, id);
    case Deadline => TimersAfterDeadline(s, id);
    case Watchdog(_) => TimersAfterWatchdog(s, id);
  }

  lemma {:induction false} TimersFetchSettled(s: Sys, id: nat, answer: Answer)
    requires TimersHeld(s) && id in s.browser.fetches
    ensures TimersHeld(FetchSettled(s, id, answer))
  {
    var t := s.(browser := s.browser.(fetches := s.browser.fetches - {id}));
    assert TimersHeld(t);
    TimersSettled(t, s.browser.fetches[id].FallbackPoll?, answer);
  }

  lemma {:induction false} TimersErrored(s: Sys, fatal: bool)
    requires TimersHeld(s)
    ensures TimersHeld(Errored(s, fatal))
  {
    TimersCarried(
      s.(channel := if s.channel.Live? then Degraded else s.channel,
         source := if fatal then None else Some(CONNECTING)));
  }

  lemma {:induction false} TimersUnmounted(s: Sys)
    requires TimersHeld(s)
    ensures TimersHeld(Unmounted(s)) && Unmounted(s).browser.timers == map[]
  {
    var t := s.(mounted := false, browser := Without(Without(s.browser, Some(s.deadline)), Some(s.watchdog)));
    assert t.browser.timers == s.browser.timers - {s.deadline} - {s.watchdog};
    assert t.pollTimer.Some? ==> t.pollTimer.value in t.browser.timers;
    assert t.reconnectTimer.Some? ==> t.reconnectTimer.value in t.browser.timers;
  }

  lemma {:induction false} TimersKept(s: Sys, step: Step)
    requires TimersHeld(s) && Enabled(s, step)
    ensures TimersHeld(Apply(s, step))
  {
    match step
    case Opens => TimersOpened(s);
    case Errors(fatal) => TimersErrored(s, fatal);
    case Settles(id, answer) => TimersFetchSettled(s, id, answer);
    case TimerFires(id) => TimersFired(s, id);
    case Unmounts => TimersUnmounted(s);
    case _ =>
  }

  lemma {:induction false} RetryAfterRetry(s: Sys, id: nat)
    requires TimersHeld(s) && RetryCounted(s) && id in s.browser.timers && s.browser.timers[id].Reconnect?
    ensures RetryCounted(TimerFired(s, id))
  {
  }

  lemma {:induction false} RetryAfterTimer(s: Sys, id: nat)
    requires TimersHeld(s) && RetryCounted(s) && id in s.browser.timers
    ensures RetryCounted(TimerFired(s, id))
  {
    if s.browser.timers[id].Reconnect? {
      RetryAfterRetry(s, id);
    }
  }

  lemma {:induction false} RetryAfterFetch(s: Sys, id: nat, answer: Answer)
    requires TimersHeld(s) && RetryCounted(s) && id in s.browser.fetches
    ensures RetryCounted(FetchSettled(s, id, answer))
  {
  }

  lemma {:induction false} RetryKept(s: Sys, step: Step)
    requires TimersHeld(s) && RetryCounted(s) && Enabled(s, step)
    ensures RetryCounted(Apply(s, step))
  {
    match step
    case TimerFires(id) => RetryAfterTimer(s, id);
    case Settles(id, answer) => RetryAfterFetch(s, id, answer);
    case _ =>
  }

  lemma {:induction false} FetchesAfterTimer(s: Sys, id: nat)
    requires FetchesNumbered(s) && id in s.browser.timers
    ensures FetchesNumbered(TimerFired(s, id))
  {
  }

  lemma {:induction false} FetchesAfterFetch(s: Sys, id: nat, answer: Answer)
    requires FetchesNumbered(s) && id in s.browser.fetches
    ensures FetchesNumbered(FetchSettled(s, id, answer))
  {
  }

  lemma {:induction false} FetchesKept(s: Sys, step: Step)
    requires FetchesNumbered(s) && Enabled(s, step)
    ensures FetchesNumbered(Apply(s, step))
  {
    match step
    case TimerFires(id) => FetchesAfterTimer(s, id);
    case Settles(id, answer) => FetchesAfterFetch(s, id, answer);
    case _ =>
  }

  lemma {:induction false} NeverStrandedKept(s: Sys, step: Step)
    requires TimersHeld(s) && NeverStranded(s) && FallbackIsArmed(s) && Enabled(s, step)
    ensures NeverStranded(Apply(s, step))
  {
  }

  lemma {:induction false} FallbackKept(s: Sys, step: Step)
    requires TimersHeld(s) && NeverStranded(s) && FallbackIsArmed(s) && Enabled(s, step)
    ensures FallbackIsArmed(Apply(s, step))
  {
  }

  lemma {:induction false} TornDownAfterFetch(s: Sys, id: nat, answer: Answer)
    requires TornDown(s) && id in s.browser.fetches
    ensures TornDown(FetchSettled(s, id, answer))
  {
  }

  lemma {:induction false} TornDownAfterTimer(s: Sys, id: nat)
    requires TimersHeld(s) && TornDown(s) && id in s.browser.timers
    ensures TornDown(TimerFired(s, id))
  {
  }

  lemma {:induction false} TornDownKept(s: Sys, step: Step)
    requires TimersHeld(s) && TornDown(s) && Enabled(s, step)
    ensures TornDown(Apply(s, step))
  {
    match step
    case Settles(id, answer) => TornDownAfterFetch(s, id, answer);
    case TimerFires(id) => TornDownAfterTimer(s, id);
    case Unmounts => TimersUnmounted(s);
    case _ =>
  }

  lemma {:induction false} WatchdogAfterTimer(s: Sys, id: nat)
    requires TimersHeld(s) && WatchdogInTime(s) && Enabled(s, TimerFires(id))
    ensures WatchdogInTime(TimerFired(s, id))
  {
  }

  lemma {:induction false} WatchdogAfterFetch(s: Sys, id: nat, answer: Answer)
    requires TimersHeld(s) && WatchdogInTime(s) && id in s.browser.fetches
    ensures WatchdogInTime(FetchSettled(s, id, answer))
  {
  }

  lemma {:induction false} WatchdogKept(s: Sys, step: Step)
    requires TimersHeld(s) && WatchdogInTime(s) && Enabled(s, step) && OnTime(s, step)
    ensures WatchdogInTime(Apply(s, step))
  {
    match step
    case TimerFires(id) => WatchdogAfterTimer(s, id);
    case Settles(id, answer) => WatchdogAfterFetch(s, id, answer);
    case _ =>
  }

  lemma {:induction false} MountInv(now: int, random: real)
    requires 0.0 <= random < 1.0
    ensures Inv(true, Mounted(now, random))
  {
  }

  lemma {:induction false} StepInv(punctual: bool, s: Sys, step: Step)
    requires Inv(punctual, s) && Enabled(s, step) && (punctual ==> OnTime(s, step))
    ensures Inv(punctual, Apply(s, step))
  {
    assert Holds(PTimers, s) && Holds(PNeverStranded, s) && Holds(PFallback, s) && Holds(PTornDown, s);
    forall p: Part | p.PWatchdog? ==> punctual ensures Holds(p, Apply(s, step)) {
      match p
      case PTimers => TimersKept(s, step);
      case PRetry =>
        assert Holds(PRetry, s);
        RetryKept(s, step);
      case PFetches =>
        assert Holds(PFetches, s);
        FetchesKept(s, step);
      case PNeverStranded => NeverStrandedKept(s, step);
      case PFallback => FallbackKept(s, step);
      case PTornDown => TornDownKept(s, step);
      case PWatchdog =>
        assert Holds(PWatchdog, s);
        WatchdogKept(s, step);
    }
  }

  lemma {:induction false} RunInv(punctual: bool, s: Sys, steps: seq<Step>)
    requires Inv(punctual, s) && ValidRun(punctual, s, steps)
    ensures Inv(punctual, After(punctual, s, steps))
    decreases |steps|
  {
    if steps != [] {
      StepInv(punctual, s, steps[0]);
      RunInv(punctual, Apply(s, steps[0]), steps[1..]);
    }
  }

  lemma {:induction false} ReachableInv(punctual: bool, s: Sys)
    requires Reachable(punctual, s)
    ensures Inv(punctual, s)
  {
    var now, random, steps :| 0.0 <= random < 1.0 && ValidRun(punctual, Mounted(now, random), steps)
                              && After(punctual, Mounted(now, random), steps) == s;
    MountInv(now, random);
    forall p: Part | p.PWatchdog? ==> punctual ensures Holds(p, Mounted(now, random)) {
      assert Holds(p, Mounted(now, random));
    }
    RunInv(punctual, Mounted(now, random), steps);
  }

  lemma {:induction false} MountIsReachable(now: int, random: real)
    requires 0.0 <= random < 1.0
    ensures Reachable(true, Mounted(now, random)) && Reachable(false, Mounted(now, random))
  {
    var s := Mounted(now, random);
    assert ValidRun(true, s, []) && After(true, s, []) == s && ValidRun(false, s, []) && After(false, s, []) == s;
  }

  lemma {:induction false} OneMoreStep(punctual: bool, s: Sys, step: Step)
    requires Reachable(punctual, s) && Enabled(s, step) && (punctual ==> OnTime(s, step))
    ensures Reachable(punctual, Apply(s, step))
  {
    var now, random, steps :| 0.0 <= random < 1.0 && ValidRun(punctual, Mounted(now, random), steps)
                              && After(punctual, Mounted(now, random), steps) == s;
    RunAppend(punctual, Mounted(now, random), steps, step);
  }

  lemma {:induction false} RunAppend(punctual: bool, s: Sys, steps: seq<Step>, step: Step)
    requires ValidRun(punctual, s, steps)
    requires Enabled(After(punctual, s, steps), step) && (punctual ==> OnTime(After(punctual, s, steps), step))
    ensures ValidRun(punctual, s, steps + [step])
    ensures After(punctual, s, steps + [step]) == Apply(After(punctual, s, steps), step)
    decreases |steps|
  {
    var more := steps + [step];
    if steps == [] {
      assert more[1..] == [];
    } else {
      RunAppend(punctual, Apply(s, steps[0]), steps[1..], step);
      assert more[1..] == steps[1..] + [step];
    }
  }

  // ---- what every run guarantees ----

  predicate Arms(s: Sys, timer: Timer) {
    exists id :: id in s.browser.timers && s.browser.timers[id] == timer
  }

  predicate ArmsReconnect(s: Sys) {
    exists id :: id in s.browser.timers && s.browser.timers[id].Reconnect?
  }

  predicate SameKind(a: Timer, b: Timer) {
    || (a.Poll? && b.Poll?) || (a.Reconnect? && b.Reconnect?)
    || (a.Watchdog? && b.Watchdog?) || (a.Deadline? && b.Deadline?)
  }

  /** Never stranded: degraded and offline keep one poll and one reconnect timer,
      live keeps neither and has an open stream, connecting keeps both or still
      waits for its deadline. No timer of any kind is armed twice. */
  lemma {:induction false} AlwaysSomethingNext(punctual: bool, s: Sys)
    requires Reachable(punctual, s) && s.mounted && !s.notFound
    ensures s.channel.Degraded? || s.channel.Offline? ==> Arms(s, Poll) && ArmsReconnect(s)
    ensures s.channel.Live? ==> !Arms(s, Poll) && !ArmsReconnect(s) && s.source == Some(OPEN)
    ensures s.channel.Connecting? ==> Arms(s, Deadline) || (Arms(s, Poll) && ArmsReconnect(s))
    ensures forall a, b {:trigger s.browser.timers[a], s.browser.timers[b]}
              | a in s.browser.timers && b in s.browser.timers ::
              SameKind(s.browser.timers[a], s.browser.timers[b]) ==> a == b
  {
    ReachableInv(punctual, s);
    assert Holds(PTimers, s) && Holds(PNeverStranded, s);
  }

  /** Exponential backoff: an armed reconnect timer belongs to the attempts since
      the last open and waits at least half and less than all of their capped
      delay; a fired one is followed by the next retry, and an open starts over. */
  lemma {:induction false} RetriesBackOff(punctual: bool, s: Sys, id: nat)
    requires Reachable(punctual, s) && id in s.browser.timers && s.browser.timers[id].Reconnect?
    ensures s.browser.timers[id].retry == s.attempts
    ensures var wait := s.browser.timers[id].wakesAt - s.browser.timers[id].armedAt as real;
            Capped(s.attempts) / 2.0 <= wait < Capped(s.attempts)
    ensures Going(s) && Enabled(s, TimerFires(id)) ==>
              && s.browser.timers[id].armedAt < s.browser.now
              && RetryArmed(Apply(s, TimerFires(id)), s.attempts + 1, s.browser.now)
    ensures Going(s) && s.source == Some(CONNECTING) ==>
              Apply(s, Opens).attempts == 0 && !ArmsReconnect(Apply(s, Opens))
  {
    ReachableInv(punctual, s);
    assert Holds(PTimers, s) && Holds(PRetry, s) && Holds(PNeverStranded, s);
    CappedLaw(s.attempts);
    if Going(s) {
      var t := TimerFired(s, id);
      assert t.browser.timers[s.browser.nextTimer].retry == s.attempts + 1;
      if s.source == Some(CONNECTING) {
        TimersOpened(s);
      }
    }
  }

  /** One more fetch, of the kind `fetch`, is in flight than before. */
  predicate OneMoreFetch(s: Sys, t: Sys, fetch: Fetch) {
    && s.browser.nextFetch !in s.browser.fetches
    && t.browser.fetches == s.browser.fetches[s.browser.nextFetch := fetch]
  }

  /** When each timer may fire and what is left of it: a poll timer goes on, the
      watchdog comes round 10 s later, a reconnect timer and the deadline fire once. */
  lemma {:induction false} TimersAreExact(punctual: bool, s: Sys, id: nat)
    requires Reachable(punctual, s) && id in s.browser.timers
    ensures Enabled(s, TimerFires(id)) <==>
              || s.browser.timers[id].Poll? || s.browser.timers[id].Deadline?
              || (s.browser.timers[id].Watchdog? && s.browser.timers[id].due <= s.browser.now)
              || (s.browser.timers[id].Reconnect? && s.browser.timers[id].wakesAt <= s.browser.now as real)
    ensures Enabled(s, TimerFires(id)) ==>
              var timer, t := s.browser.timers[id], Apply(s, TimerFires(id));
              && (timer.Poll? ==> t.browser.timers == s.browser.timers)
              && (timer.Watchdog? ==> id in t.browser.timers && t.browser.timers[id] == Watchdog(timer.due + 10_000))
              && (timer.Reconnect? || timer.Deadline? ==> id !in t.browser.timers)
  {
    ReachableInv(punctual, s);
    assert Holds(PTimers, s);
  }

  /** A fetch settles once and takes no other fetch with it. */
  lemma {:induction false} FetchesSettleOnce(punctual: bool, s: Sys, id: nat, answer: Answer)
    requires Reachable(punctual, s) && id in s.browser.fetches
    ensures var t := Apply(s, Settles(id, answer));
            && id !in t.browser.fetches
            && forall other | other in s.browser.fetches && other != id ::
                 other in t.browser.fetches && t.browser.fetches[other] == s.browser.fetches[other]
  {
    ReachableInv(punctual, s);
    assert Holds(PFetches, s);
  }

  /** A heartbeat and a frame, malformed or not, count as activity; nothing else a
      live page gets does. */
  lemma {:induction false} ActivityIsHearing(s: Sys, step: Step)
    requires Going(s) && s.channel.Live? && s.source == Some(OPEN) && Enabled(s, step) && !step.Tick?
    ensures step.HeartbeatArrives? || step.FrameArrives? ==> Apply(s, step).lastActivity == s.browser.now
    ensures !step.HeartbeatArrives? && !step.FrameArrives? && !step.TimerFires? ==>
              Apply(s, step).lastActivity == s.lastActivity
  {
  }

  /** What the two retry timers are for: while the page is not live, a fired
      reconnect timer opens a stream, or leaves the one whose handshake is under way
      alone, and a fired poll timer asks for the status. */
  lemma {:induction false} RetryTimersRetry(punctual: bool, s: Sys, id: nat)
    requires Reachable(punctual, s) && Going(s) && !s.channel.Live? && Enabled(s, TimerFires(id))
    ensures var t := Apply(s, TimerFires(id));
            && (s.browser.timers[id].Reconnect? ==>
                  && t.source == Some(CONNECTING) && t.channel == s.channel
                  && t.browser.streams == s.browser.streams + (if s.source == Some(CONNECTING) then 0 else 1)
                  && t.browser.fetches == s.browser.fetches)
            && (s.browser.timers[id].Poll? ==>
                  OneMoreFetch(s, t, FallbackPoll) && t.source == s.source && t.browser.timers == s.browser.timers)
  {
    ReachableInv(punctual, s);
    assert Holds(PTimers, s) && Holds(PFetches, s);
  }

  /** The clock to the due time, the reconnect timer, and a handshake that succeeds. */
  function Recovery(s: Sys, id: nat): seq<Step>
    requires id in s.browser.timers && s.browser.timers[id].Reconnect?
  {
    var wait := s.browser.timers[id].wakesAt - s.browser.now as real;
    var ms: nat := if wait <= 0.0 then 0 else wait.Floor + 1;
    [Tick(ms), TimerFires(id), Opens]
  }

  /** So a page that lost its stream is never more than 30 s and one good handshake
      away from being live again. */
  lemma {:induction false} ReturnsToLive(punctual: bool, s: Sys, id: nat)
    requires Reachable(punctual, s) && Going(s) && !s.channel.Live?
    requires id in s.browser.timers && s.browser.timers[id].Reconnect?
    ensures Recovery(s, id)[0].ms <= 30_000 && ValidRun(false, s, Recovery(s, id))
    ensures var t := After(false, s, Recovery(s, id));
            && t.channel.Live? && t.source == Some(OPEN) && t.attempts == 0 && Going(t)
            && t.lastActivity == t.browser.now
            && (s.channel.Degraded? || s.channel.Offline? ==> OneMoreFetch(s, t, Resync))
  {
    ReachableInv(punctual, s);
    assert Holds(PTimers, s) && Holds(PRetry, s) && Holds(PFetches, s);
    CappedLaw(s.browser.timers[id].retry);
    var steps := Recovery(s, id);
    ThreeSteps(s, steps[0], steps[1], steps[2]);
  }

  lemma {:induction false} ThreeSteps(s: Sys, a: Step, b: Step, c: Step)
    requires Enabled(s, a) && Enabled(Apply(s, a), b) && Enabled(Apply(Apply(s, a), b), c)
    ensures ValidRun(false, s, [a, b, c]) && After(false, s, [a, b, c]) == Apply(Apply(Apply(s, a), b), c)
  {
    var t, u := Apply(s, a), Apply(Apply(s, a), b);
    var v := Apply(u, c);
    assert [a, b, c][1..] == [b, c] && [b, c][1..] == [c] && [c][1..] == [];
    assert ValidRun(false, v, []) && After(false, v, []) == v;
    assert ValidRun(false, u, [c]) && After(false, u, [c]) == v;
    assert ValidRun(false, t, [b, c]) && After(false, t, [b, c]) == v;
  }

  /** However the stream is lost, the page says so at once, keeps what it shows and is
      carried by both retry timers: an error, which leaves a recoverable source
      alone and drops a fatal one, a silence beyond the watchdog's limit, a
      handshake that outlasts the deadline. */
  lemma {:induction false} LosingTheStreamIsCarried(punctual: bool, s: Sys, step: Step)
    requires Reachable(punctual, s) && Going(s) && Enabled(s, step)
    requires || step.Errors?
             || (step.TimerFires? && s.browser.timers[step.timer].Watchdog?
                 && s.channel.Live? && s.browser.now - s.lastActivity > 40_000)
             || (step.TimerFires? && s.browser.timers[step.timer].Deadline? && s.channel.Connecting?)
    ensures var t := Apply(s, step);
            && t.channel == (if s.channel.Live? then Degraded else s.channel) && t.body == s.body && Going(t)
            && Arms(t, Poll) && ArmsReconnect(t)
            && (s.pollTimer.None? ==> OneMoreFetch(s, t, FallbackPoll))
            && t.source == (if step == Errors(false) then Some(CONNECTING)
                            else if step.TimerFires? && s.channel.Connecting? then s.source else None)
  {
    ReachableInv(punctual, s);
    StepInv(false, s, step);
    assert Holds(PTimers, s) && Holds(PFetches, s) && Holds(PNeverStranded, s) && Holds(PFallback, s);
    var t := Apply(s, step);
    assert BothArmed(t);
    assert Holds(PTimers, t);
  }

  /** A live page that was heard from in time stays live. */
  lemma {:induction false} HeardStreamIsKept(punctual: bool, s: Sys, id: nat)
    requires Reachable(punctual, s) && Going(s) && s.channel.Live? && Enabled(s, TimerFires(id))
    requires s.browser.now - s.lastActivity <= 40_000
    ensures var t := Apply(s, TimerFires(id));
            t.channel.Live? && t.source == Some(OPEN) && t.body == s.body && t.browser.fetches == s.browser.fetches
  {
    ReachableInv(punctual, s);
    assert Holds(PTimers, s) && Holds(PNeverStranded, s);
  }

  /** What an answer does to a page that is not live: it is painted; a poll that
      carries the page admits with it that the page is degraded or, when it fails,
      offline; a failed cold poll leaves the page to both retry timers; and a 404 of
      either poll is final. */
  lemma {:induction false} AnswersArePainted(punctual: bool, s: Sys, id: nat, answer: Answer)
    requires Reachable(punctual, s) && Going(s) && !s.channel.Live? && id in s.browser.fetches
    ensures var fetch, t := s.browser.fetches[id], Apply(s, Settles(id, answer));
            && t.body == (if answer.Ok? then Some(answer.reading) else s.body)
            && (fetch.FallbackPoll? && !answer.NotFound? ==> t.channel == if answer.Ok? then Degraded else Offline)
            && (!fetch.FallbackPoll? || answer.NotFound? ==> t.channel == s.channel)
            && (fetch.ColdPoll? && answer.Failed? ==> Arms(t, Poll) && ArmsReconnect(t))
            && (t.notFound <==> answer.NotFound? && (fetch.ColdPoll? || fetch.FallbackPoll?))
  {
    ReachableInv(punctual, s);
    assert Holds(PTimers, s) && Holds(PFallback, s);
    StepInv(false, s, Settles(id, answer));
    var t := Apply(s, Settles(id, answer));
    assert Holds(PTimers, t);
    if s.browser.fetches[id].ColdPoll? && answer.Failed? {
      assert BothArmed(t);
    }
  }

  /** A live page paints its frames and leaves the answers of polls and refetches
      alone, a 404 of a poll excepted, which is final there too. */
  lemma {:induction false} LivePagePaintsFrames(s: Sys, reading: Reading, id: nat, answer: Answer)
    requires Going(s) && s.source == Some(OPEN) && s.channel.Live?
    ensures Enabled(s, FrameArrives(Some(reading))) && Apply(s, FrameArrives(Some(reading))).body == Some(reading)
    ensures Apply(s, FrameArrives(None)).body == s.body
    ensures id in s.browser.fetches ==>
              var t := Apply(s, Settles(id, answer));
              && t.channel.Live?
              && t.body == (if s.browser.fetches[id].Resync? && answer.Ok? then Some(answer.reading) else s.body)
              && (t.notFound <==>
                    answer.NotFound? && (s.browser.fetches[id].ColdPoll? || s.browser.fetches[id].FallbackPoll?))
  {
  }

  /** A page begins with a handshake under way, a cold poll in flight and a deadline
      for the two. */
  lemma {:induction false} ColdLoad(now: int, random: real)
    requires 0.0 <= random < 1.0
    ensures var s := Mounted(now, random);
            && Reachable(true, s) && Going(s) && s.channel.Connecting? && s.body.None?
            && s.source == Some(CONNECTING) && s.browser.streams == 1 && s.attempts == 0
            && s.browser.fetches == map[0 := ColdPoll] && Arms(s, Deadline) && !Arms(s, Poll) && !ArmsReconnect(s)
            && Arms(s, Watchdog(now + 10_000))
  {
    MountIsReachable(now, random);
    var s := Mounted(now, random);
    assert s.browser.timers[0] == Watchdog(now + 10_000) && s.browser.timers[1] == Deadline;
  }

  /** Each retry waits half of its capped delay and the share of the other half that the
      random generator gave last. */
  lemma {:induction false} JitterIsDrawn(s: Sys, id: nat, random: real)
    requires Going(s) && !s.channel.Live? && Enabled(s, Rolls(random)) && Enabled(s, TimerFires(id))
    requires s.browser.timers[id].Reconnect?
    ensures var t := Apply(Apply(s, Rolls(random)), TimerFires(id));
            && t.reconnectTimer.Some? && t.reconnectTimer.value in t.browser.timers
            && var timer := t.browser.timers[t.reconnectTimer.value];
               && timer.Reconnect? && timer.retry == s.attempts + 1 && timer.armedAt == s.browser.now
               && timer.wakesAt == s.browser.now as real + ReconnectDelay(s.attempts + 1, random)
  {
  }

  predicate RetryArmed(s: Sys, retry: nat, armedAt: int) {
    exists id {:trigger s.browser.timers[id]} ::
      id in s.browser.timers && s.browser.timers[id].Reconnect?
      && s.browser.timers[id].retry == retry && s.browser.timers[id].armedAt == armedAt
  }

  /** notFound is for good: no stream, no poll, no reconnect timer, and no stream
      or fetch is ever started again. What was in flight may still come back. */
  lemma {:induction false} NotFoundIsAbsorbing(s: Sys, steps: seq<Step>)
    requires Reachable(false, s) && s.notFound && ValidRun(false, s, steps)
    ensures var t := After(false, s, steps);
            && t.notFound && t.source.None?
            && !Arms(t, Poll) && !ArmsReconnect(t)
            && t.browser.streams == s.browser.streams && t.browser.nextFetch == s.browser.nextFetch
            && t.browser.fetches.Keys <= s.browser.fetches.Keys
  {
    ReachableInv(false, s);
    RunInv(false, s, steps);
    InertAfterNotFound(s, steps);
    assert Holds(PTimers, After(false, s, steps)) && Holds(PTornDown, After(false, s, steps));
  }

  lemma {:induction false} InertAfterNotFound(s: Sys, steps: seq<Step>)
    requires s.notFound && ValidRun(false, s, steps)
    ensures var t := After(false, s, steps);
            && t.notFound
            && t.browser.streams == s.browser.streams && t.browser.nextFetch == s.browser.nextFetch
            && t.browser.fetches.Keys <= s.browser.fetches.Keys
    decreases |steps|
  {
    if steps != [] {
      InertStep(s, steps[0]);
      InertAfterNotFound(Apply(s, steps[0]), steps[1..]);
    }
  }

  lemma {:induction false} InertStep(s: Sys, step: Step)
    requires s.notFound && Enabled(s, step)
    ensures var t := Apply(s, step);
            && t.notFound
            && t.browser.streams == s.browser.streams && t.browser.nextFetch == s.browser.nextFetch
            && t.browser.fetches.Keys <= s.browser.fetches.Keys
            && (t.body != s.body || t.channel != s.channel ==>
                 step.Settles? || step.FrameArrives? || step.Opens? || step.Errors?)
  {
  }

  /** "Every timer is torn down" is true exactly of an unmounted page: a mounted
      one keeps its watchdog, and perhaps its deadline, but no other timer. */
  lemma {:induction false} NotFoundKeepsItsWatch(s: Sys)
    requires Reachable(false, s) && s.notFound
    ensures s.browser.timers == map[] <==> !s.mounted
    ensures forall id {:trigger s.browser.timers[id]} | id in s.browser.timers ::
              s.browser.timers[id].Watchdog? || s.browser.timers[id].Deadline?
  {
    ReachableInv(false, s);
    assert Holds(PTimers, s) && Holds(PTornDown, s);
  }

  /** No answer in flight can paint the page. */
  predicate Frozen(s: Sys) {
    forall id {:trigger s.browser.fetches[id]} | id in s.browser.fetches ::
        s.channel.Live? && !s.browser.fetches[id].Resync?
  }

  ghost predicate Changeless(s: Sys) {
    forall steps {:trigger After(false, s, steps)} | ValidRun(false, s, steps) ::
      After(false, s, steps).body == s.body && After(false, s, steps).channel == s.channel
  }

  /** Whether a not-found page is done changing: if and only if every fetch in
      flight finds the channel live and is not the re-sync of a recovery. */
  lemma {:induction false} NotFoundPageIsFrozenIff(s: Sys)
    requires Reachable(false, s) && s.notFound && s.mounted
    ensures Changeless(s) <==> Frozen(s)
  {
    ReachableInv(false, s);
    if Frozen(s) {
      forall steps | ValidRun(false, s, steps)
        ensures After(false, s, steps).body == s.body && After(false, s, steps).channel == s.channel
      {
        FrozenRun(s, steps);
      }
    } else {
      var id :| id in s.browser.fetches && !(s.channel.Live? && !s.browser.fetches[id].Resync?);
      var other := Reading(Body(Active, 0), if s.body.Some? then s.body.value.readAt + 1 else 0);
      SomeAnswerPaints(s, id, other);
    }
  }

  lemma {:induction false} SomeAnswerPaints(s: Sys, id: nat, reading: Reading)
    requires s.mounted && id in s.browser.fetches && (s.channel.Live? ==> s.browser.fetches[id].Resync?)
    requires s.body != Some(reading)
    ensures !Changeless(s)
  {
    var step := Settles(id, Ok(reading));
    var t := Apply(s, step);
    assert t.body == Some(reading);
    assert [step][1..] == [];
    assert ValidRun(false, t, []) && After(false, t, []) == t;
    assert ValidRun(false, s, [step]) && After(false, s, [step]) == t;
  }

  lemma {:induction false} FrozenRun(s: Sys, steps: seq<Step>)
    requires Inv(false, s) && s.notFound && Frozen(s) && ValidRun(false, s, steps)
    ensures After(false, s, steps).body == s.body && After(false, s, steps).channel == s.channel
    decreases |steps|
  {
    if steps != [] {
      assert Holds(PTornDown, s);
      FrozenStep(s, steps[0]);
      StepInv(false, s, steps[0]);
      FrozenRun(Apply(s, steps[0]), steps[1..]);
    }
  }

  lemma {:induction false} FrozenStep(s: Sys, step: Step)
    requires TornDown(s) && s.notFound && Frozen(s) && Enabled(s, step)
    ensures var t := Apply(s, step); t.notFound && Frozen(t) && t.body == s.body && t.channel == s.channel
  {
  }

  /** A reachable not-found page, still mounted, with timers armed and an answer in
      flight that repaints it: the cold poll came back 404 before a re-sync. */
  lemma {:induction false} NotFoundPageMayChange(reading: Reading)
    ensures exists s, id ::
              && Reachable(true, s) && s.notFound && s.mounted && s.browser.timers != map[] && s.body.None?
              && id in s.browser.fetches && FetchSettled(s, id, Ok(reading)).body == Some(reading)
  {
    var s, id := NotFoundPage();
    assert FetchSettled(s, id, Ok(reading)).body == Some(reading);
  }

  lemma {:induction false} NotFoundPage() returns (s: Sys, id: nat)
    ensures Reachable(true, s) && s.notFound && s.mounted && s.body.None? && !s.channel.Live?
    ensures s.browser.timers != map[] && id in s.browser.fetches && s.browser.fetches[id].Refetch?
  {
    var t := RefetchingPage();
    OneMoreStep(true, t, Settles(0, NotFound));
    s, id := FetchSettled(t, 0, NotFound), 1;
    ReachableInv(true, s);
    assert Holds(PTimers, s);
  }

  lemma {:induction false} RefetchingPage() returns (s: Sys)
    ensures Reachable(true, s) && !s.notFound && s.mounted && s.body.None? && !s.channel.Live?
    ensures s.browser.fetches == map[0 := ColdPoll, 1 := Refetch]
  {
    var s0 := Mounted(0, 0.0);
    MountIsReachable(0, 0.0);
    OneMoreStep(true, s0, Refetches);
    s := Refetched(s0);
  }

  /** The sole-writer rule: while live, the painted body is changed by stream
      frames and by the re-sync of a recovery, nothing else. */
  lemma {:induction false} LiveBodyHasTwoWriters(s: Sys, step: Step)
    requires s.channel.Live? && Enabled(s, step) && Apply(s, step).body != s.body
    ensures step.FrameArrives? || (step.Settles? && s.browser.fetches[step.id].Resync?)
  {
  }

  /** And such a re-sync is only ever started by a stream that opens again after
      the page had admitted an outage. */
  lemma {:induction false} ResyncMeansRecovery(s: Sys, step: Step, id: nat)
    requires Enabled(s, step)
    requires id in Apply(s, step).browser.fetches && id !in s.browser.fetches
    requires Apply(s, step).browser.fetches[id].Resync?
    ensures step.Opens? && (s.channel.Degraded? || s.channel.Offline?) && Apply(s, step).channel.Live?
  {
    if step.Settles? {
      SettlingNeverResyncs(s, step.id, step.answer, id);
    }
  }

  lemma {:induction false} SettlingNeverResyncs(s: Sys, settled: nat, answer: Answer, id: nat)
    requires settled in s.browser.fetches && id in FetchSettled(s, settled, answer).browser.fetches
    requires id !in s.browser.fetches
    ensures !FetchSettled(s, settled, answer).browser.fetches[id].Resync?
  {
  }

  /** The re-sync of a recovery is not guarded like a poll: it can paint an older
      reading over a newer frame while the page claims to be live. */
  lemma {:induction false} ResyncMayRewindALivePage(older: Reading, newer: Reading)
    requires older.readAt < newer.readAt
    ensures exists s, id ::
              && Reachable(true, s) && s.channel.Live? && s.body == Some(newer)
              && id in s.browser.fetches && FetchSettled(s, id, Ok(older)).body == Some(older)
  {
    var s3, id := RecoveringPage();
    OneMoreStep(true, s3, FrameArrives(Some(newer)));
    var s4 := Apply(s3, FrameArrives(Some(newer)));
    assert s4 == s3.(lastActivity := s3.browser.now, body := Some(newer));
    assert FetchSettled(s4, id, Ok(older)).body == Some(older);
  }

  /** An outage and its recovery: open, error, open again. */
  lemma {:induction false} RecoveringPage() returns (s: Sys, id: nat)
    ensures Reachable(true, s) && s.channel.Live? && s.mounted && s.source == Some(OPEN)
    ensures id in s.browser.fetches && s.browser.fetches[id].Resync?
  {
    var s0 := Mounted(0, 0.0);
    MountIsReachable(0, 0.0);
    OneMoreStep(true, s0, Opens);
    var s1 := Opened(s0);
    assert Reachable(true, s1) && s1.channel.Live? && s1.mounted && !s1.notFound && s1.source == Some(OPEN);
    OneMoreStep(true, s1, Errors(false));
    var s2 := Errored(s1, false);
    assert Reachable(true, s2) && s2.channel.Degraded? && s2.mounted && !s2.notFound && s2.source == Some(CONNECTING);
    OneMoreStep(true, s2, Opens);
    s, id := Opened(s2), s2.browser.nextFetch;
  }

  /** No answer to a GET in flight can repaint the page. */
  ghost predicate OnlyFramesPaint(s: Sys) {
    forall id, reading {:trigger FetchSettled(s, id, Ok(reading))} ::
      id in s.browser.fetches ==> FetchSettled(s, id, Ok(reading)).body == s.body
  }

  /** The stream is the sole writer of a live page exactly when no re-sync of a
      recovery is in flight. */
  lemma {:induction false} SoleWriterIffNoResync(s: Sys)
    requires s.mounted && s.channel.Live?
    ensures OnlyFramesPaint(s)
            <==> forall id {:trigger s.browser.fetches[id]} | id in s.browser.fetches :: !s.browser.fetches[id].Resync?
  {
    forall id | id in s.browser.fetches && s.browser.fetches[id].Resync? ensures !OnlyFramesPaint(s) {
      var now := if s.body.Some? then s.body.value.readAt + 1 else 0;
      assert FetchSettled(s, id, Ok(Reading(Body(Active, 0), now))).body != s.body;
    }
  }

  /** With a watchdog that is not late, a page that claims to be live heard from
      its stream within the silence limit and one watchdog interval. */
  lemma {:induction false} LiveMeansHeardRecently(s: Sys)
    requires Reachable(true, s) && s.mounted && !s.notFound && s.channel.Live?
    ensures s.browser.now - s.lastActivity <= 50_000
  {
    ReachableInv(true, s);
    assert Holds(PWatchdog, s) && Holds(PTimers, s);
  }

  /** An unmounted page has no timer and no stream, and nothing repaints it. */
  lemma {:induction false} UnmountedIsInert(s: Sys, steps: seq<Step>)
    requires Reachable(false, s) && !s.mounted && ValidRun(false, s, steps)
    ensures var t := After(false, s, steps);
            t.browser.timers == map[] && t.source.None? && t.body == s.body && t.browser.streams == s.browser.streams
    decreases |steps|
  {
    ReachableInv(false, s);
    assert Holds(PTornDown, s);
    if steps != [] {
      OneMoreStep(false, s, steps[0]);
      UnmountedIsInert(Apply(s, steps[0]), steps[1..]);
    }
  }
}

/**
 Which sale a request is about (server/src/middleware/sale-resolver.ts): the
 priority choice among all sales and the two TTL caches in front of it.
 */
module SaleResolver {
  import opened Ids
  import opened SaleStatus

  datatype Sale = Sale(id: SaleId, slug: string, window: Window)

  predicate IsActiveAt(sale: Sale, now: int) {
    sale.window.Contains(now)
  }

  // ---- the choice as the source makes it: find, filter, sort ----

  function FindActive(sales: seq<Sale>, now: int): Option<Sale> {
    if sales == [] then None
    else if IsActiveAt(sales[0], now) then Some(sales[0])
    else FindActive(sales[1..], now)
  }

  datatype Order = SoonestStart | LatestEnd {
    predicate Keeps(sale: Sale, now: int) {
      match this
      case SoonestStart => sale.window.startMs > now
      case LatestEnd => sale.window.endMs <= now
    }

    /** Ascending, as the comparator has it. */
    function Key(sale: Sale): int {
      match this
      case SoonestStart => sale.window.startMs
      case LatestEnd => -sale.window.endMs
    }
  }

  function Filter(sales: seq<Sale>, order: Order, now: int): seq<Sale> {
    if sales == [] then []
    else (if order.Keeps(sales[0], now) then [sales[0]] else []) + Filter(sales[1..], order, now)
  }

  /** A stable sort: equal keys keep their order. */
  function Sort(sales: seq<Sale>, order: Order): (r: seq<Sale>)
    ensures |r| == |sales|
  {
    if sales == [] then [] else Insert(sales[0], Sort(sales[1..], order), order)
  }

  function Insert(sale: Sale, sorted: seq<Sale>, order: Order): (r: seq<Sale>)
    ensures |r| == |sorted| + 1
  {
    if sorted == [] || order.Key(sale) <= order.Key(sorted[0]) then [sale] + sorted
    else [sorted[0]] + Insert(sale, sorted[1..], order)
  }

  function SelectActiveSale(sales: seq<Sale>, now: int): Option<Sale> {
    var active := FindActive(sales, now);
    if active.Some? then active
    else
      var upcoming := Sort(Filter(sales, SoonestStart, now), SoonestStart);
      if upcoming != [] then Some(upcoming[0])
      else
        var ended := Sort(Filter(sales, LatestEnd, now), LatestEnd);
        if ended != [] then Some(ended[0]) else None
  }

  // ---- the choice in one pass ----

  /** 0 for an active sale, 1 for an upcoming one, 2 for an ended one. */
  function Class(sale: Sale, now: int): int {
    if IsActiveAt(sale, now) then 0 else if sale.window.startMs > now then 1 else 2
  }

  predicate NotWorse(a: Sale, b: Sale, now: int) {
    || Class(a, now) < Class(b, now)
    || (Class(a, now) == Class(b, now) &&
        match Class(a, now)
        case 0 => true
        case 1 => a.window.startMs <= b.window.startMs
        case _ => a.window.endMs >= b.window.endMs)
  }

  /** The earliest of the best. */
  function Best(sales: seq<Sale>, now: int): (r: Option<Sale>)
    ensures r.None? <==> sales == []
  {
    if sales == [] then None
    else
      var rest := Best(sales[1..], now);
      if rest.None? || NotWorse(sales[0], rest.value, now) then Some(sales[0]) else rest
  }

  /** The head of a stable sort is the earliest minimum. */
  function Earliest(sales: seq<Sale>, order: Order): Option<Sale> {
    if sales == [] then None
    else
      var rest := Earliest(sales[1..], order);
      if rest.None? || order.Key(sales[0]) <= order.Key(rest.value) then Some(sales[0]) else rest
  }

  lemma {:induction false} SortedHead(sales: seq<Sale>, order: Order)
    ensures Earliest(sales, order) == if sales == [] then None else Some(Sort(sales, order)[0])
  {
    if sales != [] {
      SortedHead(sales[1..], order);
    }
  }

  lemma {:induction false} EarliestOfFilter(sales: seq<Sale>, order: Order, now: int)
    requires sales != []
    ensures var rest := Earliest(Filter(sales[1..], order, now), order);
            Earliest(Filter(sales, order, now), order) ==
              if !order.Keeps(sales[0], now) then rest
              else if rest.None? || order.Key(sales[0]) <= order.Key(rest.value) then Some(sales[0])
              else rest
  {
    var tail := Filter(sales[1..], order, now);
    assert [] + tail == tail;
    assert ([sales[0]] + tail)[1..] == tail;
  }

  lemma {:induction false} EarliestIsKept(sales: seq<Sale>, order: Order, now: int)
    ensures var e := Earliest(Filter(sales, order, now), order); e.Some? ==> order.Keeps(e.value, now)
  {
    if sales != [] {
      EarliestOfFilter(sales, order, now);
      EarliestIsKept(sales[1..], order, now);
    }
  }

  lemma {:induction false} FoundIsActive(sales: seq<Sale>, now: int)
    ensures var f := FindActive(sales, now);
            && (f.Some? ==> f.value in sales && IsActiveAt(f.value, now))
            && (f.None? ==> forall s | s in sales :: !IsActiveAt(s, now))
  {
    if sales != [] {
      FoundIsActive(sales[1..], now);
      assert sales == [sales[0]] + sales[1..];
    }
  }

  /** Find, filter and sort come to the one-pass choice. */
  lemma {:induction false} SelectsTheBest(sales: seq<Sale>, now: int)
    ensures SelectActiveSale(sales, now) == Best(sales, now)
  {
    SortedHead(Filter(sales, SoonestStart, now), SoonestStart);
    SortedHead(Filter(sales, LatestEnd, now), LatestEnd);
    if sales != [] {
      var tail := sales[1..];
      SelectsTheBest(tail, now);
      SortedHead(Filter(tail, SoonestStart, now), SoonestStart);
      SortedHead(Filter(tail, LatestEnd, now), LatestEnd);
      EarliestOfFilter(sales, SoonestStart, now);
      EarliestOfFilter(sales, LatestEnd, now);
      EarliestIsKept(tail, SoonestStart, now);
      EarliestIsKept(tail, LatestEnd, now);
      FoundIsActive(tail, now);
      EarliestIsInactive(tail, SoonestStart, now);
      EarliestIsInactive(tail, LatestEnd, now);
      NoneUpcoming(tail, now);
    }
  }

  lemma {:induction false} EarliestIsInactive(sales: seq<Sale>, order: Order, now: int)
    ensures var e := Earliest(Filter(sales, order, now), order);
            FindActive(sales, now).None? && e.Some? ==> !IsActiveAt(e.value, now)
  {
    if sales != [] {
      EarliestOfFilter(sales, order, now);
      EarliestIsInactive(sales[1..], order, now);
    }
  }

  lemma {:induction false} NoneUpcoming(sales: seq<Sale>, now: int)
    ensures var e := Earliest(Filter(sales, LatestEnd, now), LatestEnd);
            Earliest(Filter(sales, SoonestStart, now), SoonestStart).None? && e.Some? ==> e.value.window.startMs <= now
  {
    if sales != [] {
      EarliestOfFilter(sales, SoonestStart, now);
      EarliestOfFilter(sales, LatestEnd, now);
      NoneUpcoming(sales[1..], now);
    }
  }

  /** Null exactly for the empty list; otherwise nothing beats the choice, and
      what stands before it is worse. */
  lemma {:induction false} ChoiceIsBest(sales: seq<Sale>, now: int)
    ensures SelectActiveSale(sales, now).None? <==> sales == []
    ensures var r := SelectActiveSale(sales, now);
            r.Some? ==>
              && (forall s | s in sales :: NotWorse(r.value, s, now))
              && (exists i ::
                    && 0 <= i < |sales| && sales[i] == r.value
                    && forall j | 0 <= j < i :: !NotWorse(sales[j], r.value, now))
  {
    SelectsTheBest(sales, now);
    if sales != [] {
      var i := BestIsBest(sales, now);
      assert sales[i] == Best(sales, now).value;
    }
  }

  lemma {:induction false} BestIsBest(sales: seq<Sale>, now: int) returns (i: nat)
    requires sales != []
    ensures i < |sales| && Best(sales, now) == Some(sales[i])
    ensures forall j | 0 <= j < |sales| :: NotWorse(sales[i], sales[j], now)
    ensures forall j | 0 <= j < i :: !NotWorse(sales[j], sales[i], now)
  {
    var tail := sales[1..];
    if tail == [] {
      return 0;
    }
    var k := BestIsBest(tail, now);
    assert forall j | 1 <= j < |sales| :: sales[j] == tail[j - 1];
    if NotWorse(sales[0], tail[k], now) {
      return 0;
    }
    return k + 1;
  }

  /** An active sale if there is one; otherwise the upcoming one that starts soonest;
      otherwise the one that ended last. */
  lemma {:induction false} ChoiceInWords(sales: seq<Sale>, now: int)
    ensures SelectActiveSale(sales, now).None? <==> sales == []
    ensures var r := SelectActiveSale(sales, now);
            r.Some? ==>
              && r.value in sales
              && (forall s | s in sales && s.window.startMs <= now < s.window.endMs ::
                    r.value.window.startMs <= now < r.value.window.endMs)
              && ((forall s | s in sales :: !(s.window.startMs <= now < s.window.endMs)) ==>
                    && (forall s | s in sales && now < s.window.startMs ::
                          now < r.value.window.startMs <= s.window.startMs)
                    && ((forall s | s in sales :: s.window.startMs <= now) ==>
                          forall s | s in sales :: s.window.endMs <= r.value.window.endMs))
  {
    ChoiceIsBest(sales, now);
    SelectsTheBest(sales, now);
    if sales != [] {
      var i := BestIsBest(sales, now);
      assert sales[i] in sales;
    }
  }

  // ---- the choice at boot ----

  datatype BootChoice = Overlap | NoSale | Chosen(sale: Sale)

  function ActiveOnes(sales: seq<Sale>, now: int): seq<Sale> {
    if sales == [] then []
    else (if IsActiveAt(sales[0], now) then [sales[0]] else []) + ActiveOnes(sales[1..], now)
  }

  /** More than one sale active is a configuration error. */
  function ChooseAtBoot(sales: seq<Sale>, now: int): BootChoice {
    if |ActiveOnes(sales, now)| > 1 then Overlap
    else
      match SelectActiveSale(sales, now)
      case None => NoSale
      case Some(sale) => Chosen(sale)
  }

  lemma {:induction false} ActiveIsCounted(sales: seq<Sale>, now: int, i: nat)
    requires i < |sales| && IsActiveAt(sales[i], now)
    ensures |ActiveOnes(sales, now)| >= 1
    ensures |ActiveOnes(sales, now)| == 1 ==> FindActive(sales, now) == Some(sales[i])
  {
    if i > 0 {
      ActiveIsCounted(sales[1..], now, i - 1);
    }
  }

  lemma {:induction false} TwoAreCounted(sales: seq<Sale>, now: int, i: nat, j: nat)
    requires i < j < |sales| && IsActiveAt(sales[i], now) && IsActiveAt(sales[j], now)
    ensures |ActiveOnes(sales, now)| >= 2
  {
    if i > 0 {
      TwoAreCounted(sales[1..], now, i - 1, j - 1);
    } else {
      ActiveIsCounted(sales[1..], now, j - 1);
    }
  }

  lemma {:induction false} CountedIsActive(sales: seq<Sale>, now: int) returns (i: nat)
    requires |ActiveOnes(sales, now)| >= 1
    ensures i < |sales| && IsActiveAt(sales[i], now)
  {
    if IsActiveAt(sales[0], now) {
      return 0;
    }
    i := CountedIsActive(sales[1..], now);
    i := i + 1;
  }

  lemma {:induction false} CountedTwice(sales: seq<Sale>, now: int) returns (i: nat, j: nat)
    requires |ActiveOnes(sales, now)| >= 2
    ensures i < j < |sales| && IsActiveAt(sales[i], now) && IsActiveAt(sales[j], now)
  {
    if IsActiveAt(sales[0], now) {
      var k := CountedIsActive(sales[1..], now);
      return 0, k + 1;
    }
    i, j := CountedTwice(sales[1..], now);
    i, j := i + 1, j + 1;
  }

  /** Boot refuses exactly when two entries of the list are active at once, so the
      active sale it picks is the only one and the order of the list is no matter. */
  lemma {:induction false} BootRefusesOverlapIff(sales: seq<Sale>, now: int)
    ensures ChooseAtBoot(sales, now).Overlap? <==>
              exists i, j :: 0 <= i < j < |sales| && IsActiveAt(sales[i], now) && IsActiveAt(sales[j], now)
    ensures !ChooseAtBoot(sales, now).Overlap? ==>
              forall i | 0 <= i < |sales| && IsActiveAt(sales[i], now) :: ChooseAtBoot(sales, now) == Chosen(sales[i])
    ensures ChooseAtBoot(sales, now).NoSale? <==> sales == []
    ensures ChooseAtBoot(sales, now).Chosen? ==> Best(sales, now) == Some(ChooseAtBoot(sales, now).sale)
  {
    SelectsTheBest(sales, now);
    if i, j :| 0 <= i < j < |sales| && IsActiveAt(sales[i], now) && IsActiveAt(sales[j], now) {
      TwoAreCounted(sales, now, i, j);
    }
    if |ActiveOnes(sales, now)| > 1 {
      var i, j := CountedTwice(sales, now);
    } else {
      forall i | 0 <= i < |sales| && IsActiveAt(sales[i], now) ensures ChooseAtBoot(sales, now) == Chosen(sales[i]) {
        ActiveIsCounted(sales, now, i);
      }
    }
  }

  // ---- the caches, with lookups interleaving ----

  datatype Key = BySlug(slug: string) | TheActive

  datatype Entry = Entry(sale: Sale, expiresAt: int)

  /** A lookup waiting for its query, with the clock it read when it began. */
  datatype Flight = Flight(key: Key, began: int)

  datatype Answer = Answer(key: Key, began: int, result: Option<Sale>)

  /** A request served from a cache, when `seen` answers had come back. */
  datatype Hit = Hit(key: Key, at: int, sale: Sale, seen: nat)

  datatype Sys = Sys(
    now: int,
    slugCache: map<string, Entry>,
    activeCache: Option<Entry>,
    flights: seq<Flight>,
    answers: seq<Answer>,
    hits: seq<Hit>)

  function Cached(s: Sys, key: Key): Option<Entry> {
    match key
    case BySlug(slug) => if slug in s.slugCache then Some(s.slugCache[slug]) else None
    case TheActive => s.activeCache
  }

  /** Hit or query; only the clock at the beginning counts. */
  function Began(s: Sys, key: Key): Sys {
    var cached := Cached(s, key);
    if cached.Some? && cached.value.expiresAt > s.now then
      s.(hits := s.hits + [Hit(key, s.now, cached.value.sale, |s.answers|)])
    else s.(flights := s.flights + [Flight(key, s.now)])
  }

  /** A found sale is kept for the TTL from the beginning of its lookup; a miss
      removes what was cached. */
  function Finished(s: Sys, ttlMs: int, i: nat, result: Option<Sale>): Sys
    requires i < |s.flights|
  {
    var f := s.flights[i];
    var t := s.(
      flights := s.flights[..i] + s.flights[i + 1..],
      answers := s.answers + [Answer(f.key, f.began, result)]);
    match f.key
    case BySlug(slug) =>
      t.(slugCache :=
           if result.Some? then t.slugCache[slug := Entry(result.value, f.began + ttlMs)] else t.slugCache - {slug})
    case TheActive =>
      t.(activeCache := if result.Some? then Some(Entry(result.value, f.began + ttlMs)) else None)
  }

  class Resolver {
    const ttlMs: int
    var now: int
    var slugCache: map<string, Entry>
    var activeCache: Option<Entry>
    var flights: seq<Flight>
    ghost var answers: seq<Answer>
    ghost var hits: seq<Hit>

    ghost function View(): Sys
      reads this
    {
      Sys(now, slugCache, activeCache, flights, answers, hits)
    }

    /** Some run of lookups led here, so every run theorem below holds. */
    ghost predicate Valid()
      reads this
    {
      Reachable(ttlMs, View())
    }

    constructor (ttlMs: int, now: int)
      ensures Valid() && this.ttlMs == ttlMs && View() == Sys(now, map[], None, [], [], [])
    {
      this.ttlMs, this.now := ttlMs, now;
      slugCache, activeCache, flights, answers, hits := map[], None, [], [], [];
      new;
      StartIsReachable(ttlMs, now);
    }

    method ResolveBySlug(slug: string) returns (r: Option<Sale>)
      requires Valid()
      modifies this
      ensures Valid() && View() == Began(old(View()), BySlug(slug))
      ensures hits == old(hits) + if r.Some? then [Hit(BySlug(slug), now, r.value, |answers|)] else []
    {
      OneMoreStep(ttlMs, View(), Begins(BySlug(slug)));
      if slug in slugCache && slugCache[slug].expiresAt > now {
        hits := hits + [Hit(BySlug(slug), now, slugCache[slug].sale, |answers|)];
        return Some(slugCache[slug].sale);
      }
      flights := flights + [Flight(BySlug(slug), now)];
      return None;
    }

    method ResolveActive() returns (r: Option<Sale>)
      requires Valid()
      modifies this
      ensures Valid() && View() == Began(old(View()), TheActive)
      ensures hits == old(hits) + if r.Some? then [Hit(TheActive, now, r.value, |answers|)] else []
    {
      OneMoreStep(ttlMs, View(), Begins(TheActive));
      if activeCache.Some? && activeCache.value.expiresAt > now {
        hits := hits + [Hit(TheActive, now, activeCache.value.sale, |answers|)];
        return Some(activeCache.value.sale);
      }
      flights := flights + [Flight(TheActive, now)];
      return None;
    }

    method OnAnswer(i: nat, result: Option<Sale>)
      requires Valid() && i < |flights|
      modifies this
      ensures Valid() && View() == Finished(old(View()), ttlMs, i, result)
    {
      OneMoreStep(ttlMs, View(), Finishes(i, result));
      var f := flights[i];
      flights := flights[..i] + flights[i + 1..];
      answers := answers + [Answer(f.key, f.began, result)];
      match f.key
      case BySlug(slug) =>
        if result.Some? {
          slugCache := slugCache[slug := Entry(result.value, f.began + ttlMs)];
        } else {
          slugCache := slugCache - {slug};
        }
      case TheActive =>
        if result.Some? {
          activeCache := Some(Entry(result.value, f.began + ttlMs));
        } else {
          activeCache := None;
        }
    }

    method Elapse(ms: nat)
      requires Valid()
      modifies this
      ensures Valid() && View() == old(View()).(now := old(now) + ms)
    {
      OneMoreStep(ttlMs, View(), Tick(ms));
      now := now + ms;
    }
  }

  datatype Step = Tick(ms: nat) | Begins(key: Key) | Finishes(flight: nat, result: Option<Sale>)

  predicate Enabled(s: Sys, step: Step) {
    step.Finishes? ==> step.flight < |s.flights|
  }

  function Apply(s: Sys, ttlMs: int, step: Step): Sys
    requires Enabled(s, step)
  {
    match step
    case Tick(ms) => s.(now := s.now + ms)
    case Begins(key) => Began(s, key)
    case Finishes(i, result) => Finished(s, ttlMs, i, result)
  }

  ghost predicate ValidRun(s: Sys, ttlMs: int, steps: seq<Step>)
    decreases |steps|
  {
    steps != [] ==> Enabled(s, steps[0]) && ValidRun(Apply(s, ttlMs, steps[0]), ttlMs, steps[1..])
  }

  ghost function After(s: Sys, ttlMs: int, steps: seq<Step>): Sys
    requires ValidRun(s, ttlMs, steps)
    decreases |steps|
  {
    if steps == [] then s else After(Apply(s, ttlMs, steps[0]), ttlMs, steps[1..])
  }

  function Start(now: int): Sys {
    Sys(now, map[], None, [], [], [])
  }

  ghost predicate Reachable(ttlMs: int, s: Sys) {
    exists now, steps :: ValidRun(Start(now), ttlMs, steps) && After(Start(now), ttlMs, steps) == s
  }

  lemma {:induction false} StartIsReachable(ttlMs: int, now: int)
    ensures Reachable(ttlMs, Start(now))
  {
    assert ValidRun(Start(now), ttlMs, []) && After(Start(now), ttlMs, []) == Start(now);
  }

  lemma {:induction false} OneMoreStep(ttlMs: int, s: Sys, step: Step)
    requires Reachable(ttlMs, s) && Enabled(s, step)
    ensures Reachable(ttlMs, Apply(s, ttlMs, step))
  {
    var now, steps :| ValidRun(Start(now), ttlMs, steps) && After(Start(now), ttlMs, steps) == s;
    RunAppend(Start(now), ttlMs, steps, step);
  }

  lemma {:induction false} RunAppend(s: Sys, ttlMs: int, steps: seq<Step>, step: Step)
    requires ValidRun(s, ttlMs, steps) && Enabled(After(s, ttlMs, steps), step)
    ensures ValidRun(s, ttlMs, steps + [step])
    ensures After(s, ttlMs, steps + [step]) == Apply(After(s, ttlMs, steps), ttlMs, step)
    decreases |steps|
  {
    var more := steps + [step];
    if steps == [] {
      assert more[1..] == [];
    } else {
      RunAppend(Apply(s, ttlMs, steps[0]), ttlMs, steps[1..], step);
      assert more[1..] == steps[1..] + [step];
    }
  }

  /** The last answer a lookup of `key` got. */
  function Latest(answers: seq<Answer>, key: Key): Option<Answer> {
    if answers == [] then None
    else if answers[|answers| - 1].key == key then Some(answers[|answers| - 1])
    else Latest(answers[..|answers| - 1], key)
  }

  lemma {:induction false} LatestIsLast(answers: seq<Answer>, key: Key) returns (i: nat)
    requires Latest(answers, key).Some?
    ensures i < |answers| && answers[i] == Latest(answers, key).value && answers[i].key == key
    ensures forall j | i < j < |answers| :: answers[j].key != key
  {
    i := |answers| - 1;
    if answers[i].key != key {
      i := LatestIsLast(answers[..|answers| - 1], key);
    }
  }

  /** A cache holds what the latest answer for its key found, if it found any. */
  ghost predicate CachesLatest(s: Sys, ttlMs: int, key: Key) {
    Cached(s, key) ==
      match Latest(s.answers, key)
      case None => None
      case Some(a) => if a.result.Some? then Some(Entry(a.result.value, a.began + ttlMs)) else None
  }

  /** It served the latest answer of its key, found by a lookup begun in time. */
  ghost predicate Timely(answers: seq<Answer>, ttlMs: int, hit: Hit) {
    && hit.seen <= |answers|
    && var a := Latest(answers[..hit.seen], hit.key);
       a.Some? && a.value.result == Some(hit.sale) && a.value.began <= hit.at < a.value.began + ttlMs
  }

  ghost predicate Inv(s: Sys, ttlMs: int) {
    && (forall key {:trigger CachesLatest(s, ttlMs, key)} :: CachesLatest(s, ttlMs, key))
    && (forall k {:trigger s.hits[k]} | 0 <= k < |s.hits| :: Timely(s.answers, ttlMs, s.hits[k]))
    && (forall k {:trigger s.flights[k]} | 0 <= k < |s.flights| :: s.flights[k].began <= s.now)
    && (forall k {:trigger s.answers[k]} | 0 <= k < |s.answers| :: s.answers[k].began <= s.now)
  }

  lemma {:induction false} LatestAppend(answers: seq<Answer>, a: Answer, key: Key)
    ensures Latest(answers + [a], key) == if a.key == key then Some(a) else Latest(answers, key)
  {
    assert (answers + [a])[..|answers|] == answers;
  }

  lemma {:induction false} AnswerFillsCache(s: Sys, ttlMs: int, i: nat, result: Option<Sale>, key: Key)
    requires i < |s.flights|
    ensures var f, t := s.flights[i], Finished(s, ttlMs, i, result);
            && t.answers == s.answers + [Answer(f.key, f.began, result)]
            && (key != f.key ==> Cached(t, key) == Cached(s, key))
            && (key == f.key ==>
                 Cached(t, key) == if result.Some? then Some(Entry(result.value, f.began + ttlMs)) else None)
  {
  }

  lemma {:induction false} AnswerKeepsCaches(s: Sys, ttlMs: int, i: nat, result: Option<Sale>, key: Key)
    requires i < |s.flights| && CachesLatest(s, ttlMs, key)
    ensures CachesLatest(Finished(s, ttlMs, i, result), ttlMs, key)
  {
    AnswerFillsCache(s, ttlMs, i, result, key);
    LatestAppend(s.answers, Answer(s.flights[i].key, s.flights[i].began, result), key);
  }

  lemma {:induction false} BeginningHits(s: Sys, ttlMs: int, key: Key)
    requires Inv(s, ttlMs)
    ensures var t := Began(s, key);
            forall k {:trigger t.hits[k]} | 0 <= k < |t.hits| :: Timely(t.answers, ttlMs, t.hits[k])
  {
    var t := Began(s, key);
    assert CachesLatest(s, ttlMs, key);
    assert s.answers[..|s.answers|] == s.answers;
    if |t.hits| > |s.hits| {
      var i := LatestIsLast(s.answers, key);
      assert Timely(t.answers, ttlMs, t.hits[|s.hits|]);
    }
  }

  lemma {:induction false} StepInv(s: Sys, ttlMs: int, step: Step)
    requires Inv(s, ttlMs) && Enabled(s, step)
    ensures Inv(Apply(s, ttlMs, step), ttlMs)
  {
    var t := Apply(s, ttlMs, step);
    forall key ensures CachesLatest(t, ttlMs, key) {
      assert CachesLatest(s, ttlMs, key);
      if step.Finishes? {
        AnswerKeepsCaches(s, ttlMs, step.flight, step.result, key);
      }
    }
    if step.Begins? {
      BeginningHits(s, ttlMs, step.key);
    } else {
      forall k | 0 <= k < |t.hits| ensures Timely(t.answers, ttlMs, t.hits[k]) {
        assert t.answers[..t.hits[k].seen] == s.answers[..s.hits[k].seen];
      }
    }
  }

  lemma {:induction false} RunInv(s: Sys, ttlMs: int, steps: seq<Step>)
    requires Inv(s, ttlMs) && ValidRun(s, ttlMs, steps)
    ensures Inv(After(s, ttlMs, steps), ttlMs)
    decreases |steps|
  {
    if steps != [] {
      StepInv(s, ttlMs, steps[0]);
      RunInv(Apply(s, ttlMs, steps[0]), ttlMs, steps[1..]);
    }
  }

  lemma {:induction false} ReachableInv(ttlMs: int, s: Sys)
    requires Reachable(ttlMs, s)
    ensures Inv(s, ttlMs)
  {
    var now, steps :| ValidRun(Start(now), ttlMs, steps) && After(Start(now), ttlMs, steps) == s;
    RunInv(Start(now), ttlMs, steps);
  }

  /** However lookups interleave, also when an older one answers last: a cache
      serves what the latest answered lookup of its key found, and only if that
      lookup began less than the TTL before. */
  lemma {:induction false} HitsAreTimely(ttlMs: int, s: Sys, k: nat)
    requires Reachable(ttlMs, s) && k < |s.hits|
    ensures s.hits[k].seen <= |s.answers|
    ensures exists a {:trigger s.answers[a]} :: 0 <= a < s.hits[k].seen
              && s.answers[a].key == s.hits[k].key && s.answers[a].result == Some(s.hits[k].sale)
              && s.answers[a].began <= s.hits[k].at < s.answers[a].began + ttlMs
              && forall b {:trigger s.answers[b]} | a < b < s.hits[k].seen :: s.answers[b].key != s.hits[k].key
  {
    ReachableInv(ttlMs, s);
    var hit := s.hits[k];
    assert Timely(s.answers, ttlMs, hit);
    var a := LatestIsLast(s.answers[..hit.seen], hit.key);
    assert s.answers[a] == s.answers[..hit.seen][a];
    assert forall b | 0 <= b < hit.seen :: s.answers[b] == s.answers[..hit.seen][b];
  }

  /** An answer ends its own lookup and no other, and is remembered with the key and
      the clock that lookup began with. */
  lemma {:induction false} AnswersEndTheirLookup(ttlMs: int, s: Sys, i: nat, result: Option<Sale>)
    requires i < |s.flights|
    ensures var t, f := Apply(s, ttlMs, Finishes(i, result)), s.flights[i];
            && t.answers == s.answers + [Answer(f.key, f.began, result)] && t.hits == s.hits && t.now == s.now
            && multiset(t.flights) + multiset{f} == multiset(s.flights)
            && (forall key | key != f.key :: Cached(t, key) == Cached(s, key))
  {
    assert s.flights == s.flights[..i] + [s.flights[i]] + s.flights[i + 1..];
  }

  /** Exactly when a request is served from the cache: if the latest answer of its key
      found a sale and that lookup began less than the TTL ago. Otherwise it waits
      for a query of its own. */
  lemma {:induction false} HitIffFresh(ttlMs: int, s: Sys, key: Key)
    requires Reachable(ttlMs, s)
    ensures var t, answer := Apply(s, ttlMs, Begins(key)), Latest(s.answers, key);
            if answer.Some? && answer.value.result.Some? && s.now < answer.value.began + ttlMs then
              && t.hits == s.hits + [Hit(key, s.now, answer.value.result.value, |s.answers|)]
              && t.flights == s.flights && t.answers == s.answers
            else
              t.hits == s.hits && t.flights == s.flights + [Flight(key, s.now)] && t.answers == s.answers
  {
    ReachableInv(ttlMs, s);
    assert CachesLatest(s, ttlMs, key);
  }

  /** A miss is never served: between it and any later hit of the key, a lookup of
      the key found the sale that is served. */
  lemma {:induction false} MissesAreNotServed(ttlMs: int, s: Sys, k: nat, miss: nat)
    requires Reachable(ttlMs, s) && k < |s.hits| && miss < s.hits[k].seen
    requires miss < |s.answers| && s.answers[miss].key == s.hits[k].key && s.answers[miss].result.None?
    ensures exists a {:trigger s.answers[a]} :: miss < a < s.hits[k].seen && a < |s.answers|
              && s.answers[a].key == s.hits[k].key && s.answers[a].result == Some(s.hits[k].sale)
  {
    HitsAreTimely(ttlMs, s, k);
    var a :| 0 <= a < s.hits[k].seen && s.answers[a].key == s.hits[k].key && s.answers[a].result == Some(s.hits[k].sale)
             && forall b {:trigger s.answers[b]} | a < b < s.hits[k].seen :: s.answers[b].key != s.hits[k].key;
    assert a != miss && !(a < miss);
  }

  // ---- the lookup the process is wired with ----

  /** Every query is answered from the sale chosen at boot; the clock is not used. */
  function FromBoot(chosen: Sale, key: Key): Option<Sale> {
    match key
    case BySlug(slug) => if slug == chosen.slug then Some(chosen) else None
    case TheActive => Some(chosen)
  }

  ghost predicate AnsweredFromBoot(s: Sys, chosen: Sale) {
    forall a {:trigger s.answers[a]} | 0 <= a < |s.answers| :: s.answers[a].result == FromBoot(chosen, s.answers[a].key)
  }

  /** One active sale at a time, at all times: no window is empty or overlaps
      another. */
  ghost predicate DisjointWindows(sales: seq<Sale>) {
    && (forall i {:trigger sales[i]} | 0 <= i < |sales| :: sales[i].window.startMs < sales[i].window.endMs)
    && (forall i, j {:trigger sales[i], sales[j]} | 0 <= i < j < |sales| ::
          || sales[i].window.endMs <= sales[j].window.startMs
          || sales[j].window.endMs <= sales[i].window.startMs)
  }

  /** A choice is right until its window ends, and for good exactly when no listed
      window ends later. */
  lemma {:induction false} ChoiceStaysBestIff(sales: seq<Sale>, bootNow: int, chosen: Sale, at: int)
    requires Best(sales, bootNow) == Some(chosen) && DisjointWindows(sales) && bootNow <= at
    ensures Best(sales, at) == Some(chosen)
            <==> at < chosen.window.endMs || forall j | 0 <= j < |sales| :: sales[j].window.endMs <= chosen.window.endMs
  {
    var i := BestIsBest(sales, bootNow);
    var j := BestIsBest(sales, at);
    assert sales[i] == chosen && sales[j] == Best(sales, at).value;
  }

  /** As wired, the sale served for ever is the one chosen at boot. Once it has
      ended, any active or upcoming sale beats it; among disjoint windows it is the
      right one exactly until it ends, or for good when none ends later. */
  lemma {:induction false} BootChoiceIsServed(ttlMs: int, s: Sys, sales: seq<Sale>, bootNow: int, chosen: Sale, k: nat)
    requires ChooseAtBoot(sales, bootNow) == Chosen(chosen)
    requires Reachable(ttlMs, s) && AnsweredFromBoot(s, chosen) && k < |s.hits|
    ensures s.hits[k].sale == chosen && Best(sales, bootNow) == Some(chosen)
    ensures forall a {:trigger s.answers[a]} | 0 <= a < |s.answers| ::
              s.answers[a].result == Some(chosen)
              || (s.answers[a].result.None? && s.answers[a].key.BySlug? && s.answers[a].key.slug != chosen.slug)
    ensures forall key: Key :: FromBoot(chosen, key).None? <==> key.BySlug? && key.slug != chosen.slug
    ensures s.hits[k].key.BySlug? ==> s.hits[k].key.slug == chosen.slug
    ensures DisjointWindows(sales) && bootNow <= s.hits[k].at ==>
              (Best(sales, s.hits[k].at) == Some(s.hits[k].sale)
               <==> s.hits[k].at < chosen.window.endMs
                    || forall j | 0 <= j < |sales| :: sales[j].window.endMs <= chosen.window.endMs)
    ensures chosen.window.endMs <= s.hits[k].at && chosen.window.startMs <= s.hits[k].at
            && (exists i :: 0 <= i < |sales| && Class(sales[i], s.hits[k].at) < 2)
            ==> Best(sales, s.hits[k].at) != Some(s.hits[k].sale)
  {
    HitsAreTimely(ttlMs, s, k);
    var a :| 0 <= a < s.hits[k].seen && s.answers[a].key == s.hits[k].key
        && s.answers[a].result == Some(s.hits[k].sale);
    SelectsTheBest(sales, bootNow);
    if sales != [] {
      var _ := BestIsBest(sales, s.hits[k].at);
    }
    if DisjointWindows(sales) && bootNow <= s.hits[k].at {
      ChoiceStaysBestIff(sales, bootNow, chosen, s.hits[k].at);
    }
  }

  lemma {:induction false} FirstOfTwo(first: Sale, second: Sale, bootNow: int, at: int)
    requires IsActiveAt(first, bootNow) && !IsActiveAt(second, bootNow)
    requires bootNow <= at && first.window.endMs <= at && IsActiveAt(second, at)
    ensures ChooseAtBoot([first, second], bootNow) == Chosen(first) && Best([first, second], at) == Some(second)
  {
    var both, one := [first, second], [second];
    assert both[1..] == one && one[1..] == [];
    assert ActiveOnes(one, bootNow) == [];
    assert [first] + [] == [first];
    assert ActiveOnes(both, bootNow) == [first];
    assert Best(one, at) == Some(second);
  }

  /** Reached half-way through the second of two back-to-back sales: the first one,
      chosen at boot and long over, is still served as the active sale. */
  lemma {:induction false} EndedSaleIsStillServed(ttlMs: int, first: Sale, second: Sale, bootNow: int, at: int)
    requires ttlMs > 0 && bootNow <= at
    requires IsActiveAt(first, bootNow) && !IsActiveAt(second, bootNow)
    requires first.window.endMs <= at && IsActiveAt(second, at)
    ensures ChooseAtBoot([first, second], bootNow) == Chosen(first)
    ensures exists s :: Reachable(ttlMs, s) && AnsweredFromBoot(s, first) && |s.hits| == 1
                        && s.hits[0].key.TheActive? && s.hits[0].at == at && s.hits[0].sale == first
                        && Best([first, second], at) == Some(second)
  {
    FirstOfTwo(first, second, bootNow, at);
    var s0 := Start(bootNow);
    StartIsReachable(ttlMs, bootNow);
    OneMoreStep(ttlMs, s0, Tick(at - bootNow));
    var s1 := Apply(s0, ttlMs, Tick(at - bootNow));
    OneMoreStep(ttlMs, s1, Begins(TheActive));
    var s2 := Apply(s1, ttlMs, Begins(TheActive));
    OneMoreStep(ttlMs, s2, Finishes(0, Some(first)));
    var s3 := Apply(s2, ttlMs, Finishes(0, Some(first)));
    assert s3.answers == [Answer(TheActive, at, Some(first))] && s3.activeCache == Some(Entry(first, at + ttlMs));
    OneMoreStep(ttlMs, s3, Begins(TheActive));
    var s4 := Apply(s3, ttlMs, Begins(TheActive));
    assert s4.hits == [Hit(TheActive, at, first, 1)];
  }
}

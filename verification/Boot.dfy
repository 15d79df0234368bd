/**
 The restart gate (server/src/adapters/redis/migrate.ts,
 server/src/adapters/redis/reconcile.ts and steps 9 and 10 of
 server/src/bootstrap.ts): flat-key migration, then warm start or cold rebuild,
 each a fixed sequence of Redis writes the process may die between.
 */
module Boot {
  import opened Ids
  import opened OrderScript

  /** The four keys a boot looks at, for the active sale. */
  datatype Keys = Keys(
    flatStock: Option<Raw>,
    flatOrders: Option<set<Email>>,
    stock: Option<Raw>,
    orders: Option<set<Email>>)

  datatype Write =
    | DelFlatStock
    | DelFlatOrders
    | RenameFlatStock
    | RenameFlatOrders
    | DelOrders
    | AddOrders(emails: set<Email>)
    | SetStock(remaining: int)

  /** What MongoDB says at one boot: confirmed emails and the sale's quantity. */
  datatype Truth = Truth(emails: set<Email>, quantity: int)

  function Max(a: int, b: int): int {
    if a >= b then a else b
  }

  function Members(s: Option<set<Email>>): set<Email> {
    if s.Some? then s.value else {}
  }

  function Exec(k: Keys, w: Write): Keys {
    match w
    case DelFlatStock => k.(flatStock := None)
    case DelFlatOrders => k.(flatOrders := None)
    case RenameFlatStock => k.(stock := k.flatStock, flatStock := None)
    case RenameFlatOrders => k.(orders := k.flatOrders, flatOrders := None)
    case DelOrders => k.(orders := None)
    case AddOrders(es) => k.(orders := Some(Members(k.orders) + es))
    case SetStock(n) => k.(stock := Some(Number(n)))
  }

  function ExecAll(k: Keys, ws: seq<Write>): Keys {
    if ws == [] then k else Exec(ExecAll(k, ws[..|ws| - 1]), ws[|ws| - 1])
  }

  function If(b: bool, w: Write): seq<Write> {
    if b then [w] else []
  }

  function MigrateWrites(k: Keys): seq<Write> {
    if k.stock.Some? then If(k.flatStock.Some?, DelFlatStock) + If(k.flatOrders.Some?, DelFlatOrders)
    else If(k.flatStock.Some?, RenameFlatStock) + If(k.flatOrders.Some?, RenameFlatOrders)
  }

  /** The stock key is the warm/cold sentinel, so it is written last. */
  function RebuildWrites(m: Truth): seq<Write> {
    RefillWrites(m) + [SetStock(Max(0, m.quantity - |m.emails|))]
  }

  function RefillWrites(m: Truth): seq<Write> {
    [DelOrders] + If(m.emails != {}, AddOrders(m.emails))
  }

  function ReconcileWrites(k: Keys, m: Truth): seq<Write> {
    if k.stock.Some? then [] else RebuildWrites(m)
  }

  function BootWrites(k: Keys, m: Truth): seq<Write> {
    MigrateWrites(k) + ReconcileWrites(ExecAll(k, MigrateWrites(k)), m)
  }

  /** A boot that dies after `cut` writes, or completes. */
  function BootUntil(k: Keys, m: Truth, cut: nat): Keys {
    var ws := BootWrites(k, m);
    ExecAll(k, if cut < |ws| then ws[..cut] else ws)
  }

  function Booted(k: Keys, m: Truth): Keys {
    ExecAll(k, BootWrites(k, m))
  }

  // ---- what the table of cases comes to ----

  lemma {:induction false} ExecTwo(k: Keys, a: Write, b: Write)
    ensures ExecAll(k, [a]) == Exec(k, a) && ExecAll(k, [a, b]) == Exec(Exec(k, a), b)
  {
    assert [a][..0] == [] && [a, b][..1] == [a];
  }

  lemma {:induction false} ExecAppend(k: Keys, ws: seq<Write>, w: Write)
    ensures ExecAll(k, ws + [w]) == Exec(ExecAll(k, ws), w)
  {
    assert (ws + [w])[..|ws|] == ws;
  }

  function Migrated(k: Keys): Keys {
    if k.stock.Some? then Keys(None, None, k.stock, k.orders)
    else Keys(None, None, k.flatStock, if k.flatOrders.Some? then k.flatOrders else k.orders)
  }

  lemma {:induction false} MigrateResult(k: Keys)
    ensures ExecAll(k, MigrateWrites(k)) == Migrated(k)
  {
    ExecTwo(k, DelFlatStock, DelFlatOrders);
    ExecTwo(k, DelFlatOrders, DelFlatOrders);
    ExecTwo(k, RenameFlatStock, RenameFlatOrders);
    ExecTwo(k, RenameFlatOrders, RenameFlatOrders);
  }

  function Rebuilt(m: Truth): Keys {
    Keys(None, None, Some(Number(Max(0, m.quantity - |m.emails|))), if m.emails == {} then None else Some(m.emails))
  }

  lemma {:induction false} RebuildResult(k: Keys, m: Truth)
    requires k.flatStock.None? && k.flatOrders.None?
    ensures ExecAll(k, RebuildWrites(m)) == Rebuilt(m)
  {
    var front := [DelOrders] + If(m.emails != {}, AddOrders(m.emails));
    ExecAppend(k, front, SetStock(Max(0, m.quantity - |m.emails|)));
    ExecTwo(k, DelOrders, AddOrders(m.emails));
    assert m.emails == {} ==> front == [DelOrders];
    assert m.emails != {} ==> front == [DelOrders, AddOrders(m.emails)];
    assert {} + m.emails == m.emails;
  }

  lemma {:induction false} ExecConcat(k: Keys, ws: seq<Write>, vs: seq<Write>)
    ensures ExecAll(k, ws + vs) == ExecAll(ExecAll(k, ws), vs)
  {
    if vs == [] {
      assert ws + vs == ws;
    } else {
      ExecConcat(k, ws, vs[..|vs| - 1]);
      assert (ws + vs)[..|ws + vs| - 1] == ws + vs[..|vs| - 1];
    }
  }

  /** A completed boot from any combination of the four keys: no flat key is
      left; namespaced state wins, then the flat stock, then MongoDB. */
  lemma {:induction false} BootResult(k: Keys, m: Truth)
    ensures Booted(k, m) == if k.stock.Some? || k.flatStock.Some? then Migrated(k) else Rebuilt(m)
  {
    var g := ExecAll(k, MigrateWrites(k));
    MigrateResult(k);
    ExecConcat(k, MigrateWrites(k), ReconcileWrites(g, m));
    if g.stock.None? {
      RebuildResult(g, m);
    }
  }

  /** Once a boot completed, later boots write nothing, whatever MongoDB says. */
  lemma {:induction false} BootIsIdempotent(k: Keys, m: Truth, later: Truth)
    ensures BootWrites(Booted(k, m), later) == [] && Booted(Booted(k, m), later) == Booted(k, m)
  {
    BootResult(k, m);
    var b := Booted(k, m);
    assert MigrateWrites(b) == [];
  }

  /** A flat upgrade hands over the flat buyers exactly unless there were none to
      hand over and the namespaced set had a leftover. */
  lemma {:induction false} UpgradeKeepsFlatMembersIff(k: Keys, m: Truth)
    requires k.stock.None? && k.flatStock.Some?
    ensures Booted(k, m).stock == k.flatStock
    ensures Members(Booted(k, m).orders) == Members(k.flatOrders) <==> k.flatOrders.Some? || Members(k.orders) == {}
  {
    BootResult(k, m);
  }

  // ---- boots that die half-way ----

  datatype Try = Try(truth: Truth, cut: nat)

  /** Each boot of `tries` dies before its last write. */
  predicate AllDie(k: Keys, tries: seq<Try>)
    decreases |tries|
  {
    tries != [] ==>
      && tries[0].cut < |BootWrites(k, tries[0].truth)|
      && AllDie(BootUntil(k, tries[0].truth, tries[0].cut), tries[1..])
  }

  function AfterTries(k: Keys, tries: seq<Try>): Keys
    decreases |tries|
  {
    if tries == [] then k else AfterTries(BootUntil(k, tries[0].truth, tries[0].cut), tries[1..])
  }

  predicate Cold(k: Keys) {
    k.stock.None? && k.flatStock.None?
  }

  /** Until the last write of a rebuild the sentinel stays absent. */
  lemma {:induction false} DyingRebuildStaysCold(k: Keys, m: Truth, cut: nat)
    requires Cold(k) && cut < |BootWrites(k, m)|
    ensures Cold(BootUntil(k, m, cut))
  {
    var ws := BootWrites(k, m);
    MigrateResult(k);
    ColdWrites(k, m);
    assert ws[..cut] <= ws[..|ws| - 1];
    OrdersWritesStayCold(k, ws[..cut]);
  }

  predicate TouchesOrdersOnly(w: Write) {
    w.RenameFlatOrders? || w.DelOrders? || w.AddOrders?
  }

  lemma {:induction false} ColdWrites(k: Keys, m: Truth)
    requires Cold(k)
    ensures var ws := BootWrites(k, m);
            ws != [] && forall w | w in ws[..|ws| - 1] :: TouchesOrdersOnly(w)
  {
    MigrateResult(k);
    var front, rest := MigrateWrites(k) + RefillWrites(m), RebuildWrites(m);
    assert BootWrites(k, m) == MigrateWrites(k) + rest == front + [rest[|rest| - 1]];
    assert (front + [rest[|rest| - 1]])[..|front|] == front;
  }

  lemma {:induction false} OrdersWritesStayCold(k: Keys, ws: seq<Write>)
    requires Cold(k) && forall w | w in ws :: TouchesOrdersOnly(w)
    ensures Cold(ExecAll(k, ws))
  {
    if ws != [] {
      OrdersWritesStayCold(k, ws[..|ws| - 1]);
      assert TouchesOrdersOnly(ws[|ws| - 1]);
    }
  }

  lemma {:induction false} DyingRebuildsStayCold(k: Keys, tries: seq<Try>)
    requires Cold(k) && AllDie(k, tries)
    ensures Cold(AfterTries(k, tries))
    decreases |tries|
  {
    if tries != [] {
      DyingRebuildStaysCold(k, tries[0].truth, tries[0].cut);
      DyingRebuildsStayCold(BootUntil(k, tries[0].truth, tries[0].cut), tries[1..]);
    }
  }

  /** Any leftover buyers, namespaced or flat, any number of boots dead after any
      prefix of their writes (RENAME, DEL, SADD, SET), with MongoDB moving on
      between them: the first completed boot leaves exactly what MongoDB confirms at
      that boot. */
  lemma {:induction false} ColdRebuildSurvivesCrashes(k: Keys, tries: seq<Try>, m: Truth)
    requires Cold(k) && AllDie(k, tries)
    ensures var b := Booted(AfterTries(k, tries), m);
            && Members(b.orders) == m.emails
            && b.stock == Some(Number(Max(0, m.quantity - |m.emails|)))
            && |Members(b.orders)| + b.stock.value.n == Max(m.quantity, |m.emails|)
  {
    DyingRebuildsStayCold(k, tries);
    BootResult(AfterTries(k, tries), m);
  }

  /** Where an upgrade or a warm boot can die, the namespaced set is untouched. */
  lemma {:induction false} DyingMigration(k: Keys, m: Truth, cut: nat)
    requires k.stock.Some? || k.flatStock.Some?
    requires cut < |BootWrites(k, m)|
    ensures var d := BootUntil(k, m, cut);
            && d.orders == k.orders
            && (d.stock.Some? || d.flatStock.Some?)
            && Migrated(d).stock == Migrated(k).stock
            && (d == k || Migrated(d).orders == if LosesMembers(k, cut) then k.orders else Migrated(k).orders)
  {
    MigrateResult(k);
    var ws := BootWrites(k, m);
    assert ws == MigrateWrites(k);
    assert ws[..0] == [] && (cut == 1 ==> ws[..1] == [ws[0]]);
    ExecTwo(k, ws[0], ws[0]);
  }

  /** The crash window: both flat keys were there, only the stock was renamed. */
  predicate LosesMembers(k: Keys, cut: nat) {
    k.stock.None? && k.flatStock.Some? && k.flatOrders.Some? && cut == 1
  }

  /** One dead boot and a completed one leave what one completed boot leaves,
      except between the two renames, where the flat buyers are deleted. */
  lemma {:induction false} CrashedMigrationIff(k: Keys, m: Truth, cut: nat, later: Truth)
    requires k.stock.Some? || k.flatStock.Some?
    requires cut < |BootWrites(k, m)|
    ensures Booted(BootUntil(k, m, cut), later) == Booted(k, m)
            <==> !LosesMembers(k, cut) || k.orders == k.flatOrders
  {
    var d := BootUntil(k, m, cut);
    DyingMigration(k, m, cut);
    BootResult(k, m);
    BootResult(d, later);
  }

  /** Units sold and units left, of keys a completed boot leaves. */
  function Capacity(k: Keys): int {
    |Members(k.orders)| + if k.stock.Some? && k.stock.value.Number? then k.stock.value.n else 0
  }

  /** However many boots die on the way, an upgrade ends with the right stock and a
      buyer set that is either the migrated one or the old namespaced one, so units
      sold plus units left exceed those of an undisturbed boot by at most what the
      leftover set is larger. */
  lemma {:induction false} CrashedUpgradeCapacity(k: Keys, tries: seq<Try>, m: Truth)
    requires (k.stock.Some? || k.flatStock.Some?) && AllDie(k, tries)
    ensures var b := Booted(AfterTries(k, tries), m);
            && b.stock == Migrated(k).stock
            && (b.orders == Migrated(k).orders || b.orders == k.orders)
            && Capacity(b) <= Capacity(Booted(k, m)) + Max(0, |Members(k.orders)| - |Members(Migrated(k).orders)|)
    decreases |tries|
  {
    BootResult(k, m);
    if tries != [] {
      var d := BootUntil(k, tries[0].truth, tries[0].cut);
      DyingMigration(k, tries[0].truth, tries[0].cut);
      BootResult(d, m);
      CrashedUpgradeCapacity(d, tries[1..], m);
    }
  }

  /** The one crash that matters adds capacity exactly when the leftover namespaced
      set it falls back on is larger than the flat one it loses. */
  lemma {:induction false} LosingMembersAddsCapacityIff(k: Keys, m: Truth, later: Truth)
    requires LosesMembers(k, 1) && 1 < |BootWrites(k, m)|
    ensures Capacity(Booted(BootUntil(k, m, 1), later)) > Capacity(Booted(k, m))
            <==> |Members(k.orders)| > |Members(k.flatOrders)|
  {
    DyingMigration(k, m, 1);
    BootResult(k, m);
    BootResult(BootUntil(k, m, 1), later);
  }

  // ---- two processes booting cold at once ----

  /** `all` is the writes of both, each in its own order. */
  ghost predicate Merges(ws: seq<Write>, vs: seq<Write>, all: seq<Write>)
    decreases |all|
  {
    if all == [] then ws == [] && vs == []
    else
      || (ws != [] && ws[0] == all[0] && Merges(ws[1..], vs, all[1..]))
      || (vs != [] && vs[0] == all[0] && Merges(ws, vs[1..], all[1..]))
  }

  /** The keys when one rebuild has made `i` of its writes and the other `j`. */
  ghost predicate Overlapped(k: Keys, m: Truth, i: nat, j: nat) {
    var n, r := |RebuildWrites(m)|, Rebuilt(m);
    && i <= n && j <= n && k.flatStock.None? && k.flatOrders.None?
    && (i > 0 || j > 0 ==> Members(k.orders) <= m.emails && (m.emails == {} ==> k.orders.None?))
    && (i >= n - 1 && j >= n - 1 ==> k.orders == r.orders)
    && (i == n || j == n ==> k.stock == r.stock)
  }

  lemma {:induction false} OverlapStep(k: Keys, m: Truth, i: nat, j: nat)
    requires Overlapped(k, m, i, j) && i < |RebuildWrites(m)|
    ensures Overlapped(Exec(k, RebuildWrites(m)[i]), m, i + 1, j)
    ensures Overlapped(Exec(k, RebuildWrites(m)[i]), m, j, i + 1)
  {
    if i > 0 {
      assert Members(k.orders) + m.emails == m.emails;
    }
  }

  lemma {:induction false} ExecHead(k: Keys, ws: seq<Write>)
    requires ws != []
    ensures ExecAll(k, ws) == ExecAll(Exec(k, ws[0]), ws[1..])
  {
    ExecConcat(k, [ws[0]], ws[1..]);
    ExecTwo(k, ws[0], ws[0]);
    assert ws == [ws[0]] + ws[1..];
  }

  lemma {:induction false} OverlapRun(k: Keys, m: Truth, i: nat, j: nat, all: seq<Write>)
    requires Overlapped(k, m, i, j) && Merges(RebuildWrites(m)[i..], RebuildWrites(m)[j..], all)
    ensures ExecAll(k, all) == Rebuilt(m)
    decreases |all|
  {
    var ws := RebuildWrites(m);
    if all != [] {
      ExecHead(k, all);
      assert i < |ws| ==> ws[i..][1..] == ws[i + 1..];
      assert j < |ws| ==> ws[j..][1..] == ws[j + 1..];
      if i < |ws| && ws[i] == all[0] && Merges(ws[i + 1..], ws[j..], all[1..]) {
        OverlapStep(k, m, i, j);
        OverlapRun(Exec(k, all[0]), m, i + 1, j, all[1..]);
      } else {
        OverlapStep(k, m, j, i);
        OverlapRun(Exec(k, all[0]), m, i, j + 1, all[1..]);
      }
    }
  }

  /** Two processes that both found the sentinel absent and read the same MongoDB
      may interleave their writes in any way: once both are through, Redis holds
      what one rebuild leaves, provided nothing else wrote meanwhile. */
  lemma {:induction false} OverlappingBootsAgree(k: Keys, m: Truth, all: seq<Write>)
    requires k.flatStock.None? && k.flatOrders.None? && Merges(RebuildWrites(m), RebuildWrites(m), all)
    ensures ExecAll(k, all) == Rebuilt(m)
  {
    var ws := RebuildWrites(m);
    assert ws[0..] == ws;
    OverlapRun(k, m, 0, 0, all);
  }

  /** Once the first of them serves, the second still rebuilds on its stale test of
      the sentinel: a buyer the first accepted is kept if and only if MongoDB had
      confirmed it to the second, and one that dies between DEL and SADD leaves a
      sale with no buyer at all that every later boot takes for warm. */
  lemma {:induction false} LateRebuildKeepsBuyerIff(now: Keys, m: Truth, buyer: Email, later: Truth)
    requires now.stock.Some? && now.flatStock.None? && now.flatOrders.None? && buyer in Members(now.orders)
    ensures buyer in Members(ExecAll(now, RebuildWrites(m)).orders) <==> buyer in m.emails
    ensures Members(Booted(ExecAll(now, RebuildWrites(m)[..1]), later).orders) == {}
    ensures Booted(ExecAll(now, RebuildWrites(m)[..1]), later).stock == now.stock
  {
    RebuildResult(now, m);
    var ws := RebuildWrites(m);
    assert ws[..1] == [DelOrders];
    ExecTwo(now, DelOrders, DelOrders);
    BootResult(Exec(now, DelOrders), later);
  }

  // ---- the boot as the process runs it ----

  /** The Redis connection of a booting process: `left` writes before it dies. */
  class BootProcess {
    var keys: Keys
    var left: nat
    var alive: bool

    constructor (keys: Keys, left: nat)
      ensures this.keys == keys && this.left == left && alive
    {
      this.keys, this.left, alive := keys, left, true;
    }

    method Send(w: Write)
      modifies this
      ensures if old(alive && left > 0)
              then keys == Exec(old(keys), w) && left == old(left) - 1 && alive
              else keys == old(keys) && left == old(left) && !alive
    {
      if alive && left > 0 {
        keys, left := Exec(keys, w), left - 1;
      } else {
        alive := false;
      }
    }

    /** After sending `ws`, or as much of it as the process lived for. */
    twostate predicate Sent(ws: seq<Write>)
      reads this
    {
      var n := if |ws| <= old(left) then |ws| else old(left);
      && keys == ExecAll(old(keys), ws[..n])
      && left == old(left) - n && (alive <==> |ws| <= old(left))
    }

    method Migrate()
      requires alive
      modifies this
      ensures Sent(MigrateWrites(old(keys)))
    {
      var namespacedExists, flatStockExists, flatOrdersExists :=
        keys.stock.Some?, keys.flatStock.Some?, keys.flatOrders.Some?;
      ghost var k := keys;
      if !flatStockExists && !flatOrdersExists {
        return;
      }
      if namespacedExists {
        if flatStockExists { Send(DelFlatStock); }
        if flatOrdersExists { Send(DelFlatOrders); }
      } else {
        if flatStockExists { Send(RenameFlatStock); }
        if flatOrdersExists { Send(RenameFlatOrders); }
      }
      ExecTwo(k, DelFlatStock, DelFlatOrders);
      ExecTwo(k, DelFlatOrders, DelFlatOrders);
      ExecTwo(k, RenameFlatStock, RenameFlatOrders);
      ExecTwo(k, RenameFlatOrders, RenameFlatOrders);
    }

    /** DEL, SADD, SET: the sentinel last. */
    method Rebuild(emails: set<Email>, remaining: int)
      requires alive
      modifies this
      ensures Sent([DelOrders] + If(emails != {}, AddOrders(emails)) + [SetStock(remaining)])
    {
      ghost var k := keys;
      Send(DelOrders);
      if emails != {} {
        Send(AddOrders(emails));
      }
      Send(SetStock(remaining));
      RebuildPrefixes(k, emails, remaining);
    }

    /** Migrate, test the sentinel, rebuild from MongoDB only if it is absent. */
    method Boot(m: Truth)
      requires alive
      modifies this
      ensures keys == BootUntil(old(keys), m, old(left))
      ensures alive <==> |BootWrites(old(keys), m)| <= old(left)
      ensures alive ==> keys == Booted(old(keys), m)
    {
      ghost var k := keys;
      ghost var first := MigrateWrites(k);
      BootInTwoParts(k, m, left);
      Migrate();
      assert first[..|first|] == first;
      if !alive {
        return;
      }
      assert keys == ExecAll(k, first);
      if keys.stock.None? {
        assert ReconcileWrites(keys, m) == RebuildWrites(m);
        Rebuild(m.emails, Max(0, m.quantity - |m.emails|));
      } else {
        assert ReconcileWrites(keys, m) == [];
      }
    }
  }

  /** The writes that `left` allows, first of the migration, then of the rebuild. */
  lemma {:induction false} BootInTwoParts(k: Keys, m: Truth, left: nat)
    ensures var first := MigrateWrites(k);
            var rest := ReconcileWrites(ExecAll(k, first), m);
            && |BootWrites(k, m)| == |first| + |rest|
            && Booted(k, m) == ExecAll(ExecAll(k, first), rest[..|rest|])
            && BootUntil(k, m, left) ==
                 if left < |first| then ExecAll(k, first[..left])
                 else ExecAll(ExecAll(k, first), rest[..if |rest| <= left - |first| then |rest| else left - |first|])
  {
    var first := MigrateWrites(k);
    var rest := ReconcileWrites(ExecAll(k, first), m);
    ExecConcat(k, first, rest);
    assert rest[..|rest|] == rest;
    if left < |first| {
      assert (first + rest)[..left] == first[..left];
    } else if left < |first + rest| {
      var n := left - |first|;
      assert (first + rest)[..left] == first + rest[..n];
      ExecConcat(k, first, rest[..n]);
    }
  }

  lemma {:induction false} RebuildPrefixes(k: Keys, emails: set<Email>, remaining: int)
    ensures var ws := [DelOrders] + If(emails != {}, AddOrders(emails)) + [SetStock(remaining)];
            && ExecAll(k, ws[..0]) == k && ExecAll(k, ws[..1]) == Exec(k, DelOrders)
            && (emails == {} ==> ExecAll(k, ws[..2]) == Exec(Exec(k, DelOrders), SetStock(remaining)))
            && (emails != {} ==> ExecAll(k, ws[..2]) == Exec(Exec(k, DelOrders), AddOrders(emails)))
            && (emails != {} ==>
                 ExecAll(k, ws[..3]) == Exec(Exec(Exec(k, DelOrders), AddOrders(emails)), SetStock(remaining)))
  {
    var ws := [DelOrders] + If(emails != {}, AddOrders(emails)) + [SetStock(remaining)];
    assert ws[..0] == [] && ws[..1] == [DelOrders];
    ExecTwo(k, DelOrders, AddOrders(emails));
    ExecTwo(k, DelOrders, SetStock(remaining));
    if emails == {} {
      assert ws[..2] == [DelOrders, SetStock(remaining)];
    } else {
      assert ws[..2] == [DelOrders, AddOrders(emails)];
      assert ws[..3] == [DelOrders, AddOrders(emails)] + [SetStock(remaining)];
      ExecAppend(k, [DelOrders, AddOrders(emails)], SetStock(remaining));
    }
  }
}

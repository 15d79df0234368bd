/**
 That the pipeline can always be drained: from every state it reaches, live workers
 with the source's own steps (server/src/worker/order-worker.ts) carry everything
 accepted and not lost into MongoDB.
 */
module PipelineDrain {
  import opened Ids
  import opened AuditStore
  import opened BulkAudit
  import opened OrderScript
  import opened Pipeline

  /** A later state in which nothing was decided and nothing got lost. */
  ghost predicate Carried(u: Setup, s: Sys, t: Sys) {
    Later(u, s, t) && t.sale == s.sale && t.lost == s.lost
  }

  lemma {:induction false} CarriedSame(u: Setup, s: Sys)
    ensures Carried(u, s, s)
  {
    LaterSame(u, s);
  }

  lemma {:induction false} CarriedTwice(u: Setup, s: Sys, t: Sys, v: Sys)
    requires Carried(u, s, t) && Carried(u, t, v)
    ensures Carried(u, s, v)
  {
    var steps :| ValidRun(u, s, steps) && After(u, s, steps) == t;
    var more :| ValidRun(u, t, more) && After(u, t, more) == v;
    RunConcat(u, s, steps, more);
  }

  lemma {:induction false} CarriedByStep(u: Setup, s: Sys, step: Step)
    requires Enabled(s, step) && Apply(u, s, step).sale == s.sale && Apply(u, s, step).lost == s.lost
    ensures Carried(u, s, Apply(u, s, step))
  {
    var t := Apply(u, s, step);
    assert [step][1..] == [];
    assert ValidRun(u, t, []) && After(u, t, []) == t;
    assert ValidRun(u, s, [step]) && After(u, s, [step]) == t;
  }

  // ---- one entry through the five phases ----

  /** What a confirmed ack means: the batch has left the pending list for good, the
      worker is free, and no other consumer notices. */
  lemma {:induction false} AckSettlesTheBatch(u: Setup, s: Sys, c: Consumer)
    requires Reachable(u, s) && Enabled(s, AckRuns(c))
    ensures var t := Apply(u, s, AckRuns(c));
            && t.workers[c] == Idle && (forall i | i in s.workers[c].batch :: i in t.acked && i !in t.pel[c])
            && (forall i | i in s.pel[c] && i !in s.workers[c].batch :: i in t.pel[c])
            && (forall d | d in s.pel && d != c :: t.pel[d] == s.pel[d])
            && (forall d | d in s.workers && d != c :: t.workers[d] == s.workers[d])
            && s.acked <= t.acked && t.store == s.store
            && (forall i | i in s.workers[c].batch :: i < |t.stream| && RecordedOnce(t.store, t.stream[i]))
  {
    ReachableInv(u, s);
    assert Holds(WorkersPart, u, s);
    assert WorkerInv(s.workers[c], Own(s, c), s.stream, s.store);
    forall i | i in s.workers[c].batch ensures i < |s.stream| && RecordedOnce(s.store, s.stream[i]) {
      EntryRecordedOnce(u, s, i);
    }
  }

  /** One phase of a one-entry batch: its upsert and the step to the next phase. */
  lemma {:induction false} OnePhase(u: Setup, s: Sys, c: Consumer, i: nat, phase: Phase) returns (t: Sys)
    requires c in s.pel && c in s.workers
    requires s.workers[c] == Busy([i], phase, {}) && !phase.Ack? && i < |s.stream|
    ensures Carried(u, s, t)
    ensures var store := UpsertFor(s.store, phase, s.stream[i]);
            t == s.(store := store,
                    workers := s.workers[c := Busy([i], NextPhase(store, phase, Payloads(s.stream, [i])), {})])
  {
    CarriedByStep(u, s, Upsert(c, i));
    var m := Apply(u, s, Upsert(c, i));
    assert m.workers[c] == Busy([i], phase, {i});
    CarriedByStep(u, m, PhaseDone(c));
    t := Apply(u, m, PhaseDone(c));
    CarriedTwice(u, s, m, t);
    assert m.workers[c := t.workers[c]] == s.workers[c := t.workers[c]];
  }

  lemma {:induction false} AllPhases(u: Setup, s: Sys, c: Consumer, i: nat) returns (t: Sys)
    requires c in s.pel && c in s.workers && s.workers[c] == Busy([i], Users, {}) && i < |s.stream|
    ensures Carried(u, s, t) && t == s.(store := t.store, workers := s.workers[c := Busy([i], Ack, {})])
  {
    var s1 := OnePhase(u, s, c, i, Users);
    var s2 := OnePhase(u, s1, c, i, s1.workers[c].phase);
    t := OnePhase(u, s2, c, i, s2.workers[c].phase);
    CarriedTwice(u, s, s1, s2);
    CarriedTwice(u, s, s2, t);
    assert s2.workers[c := t.workers[c]] == s.workers[c := t.workers[c]];
  }

  lemma {:induction false} AckOne(u: Setup, s: Sys, c: Consumer, i: nat)
    requires Enabled(s, AckRuns(c)) && s.workers[c].batch == [i]
    ensures Apply(u, s, AckRuns(c))
            == s.(pel := s.pel[c := s.pel[c] - {i}], acked := s.acked + {i}, workers := s.workers[c := Idle])
  {
    var t := Apply(u, s, AckRuns(c));
    assert forall j :: j in s.workers[c].batch <==> j == i;
    assert t.acked == s.acked + {i} && t.pel[c] == s.pel[c] - {i};
  }

  /** A free worker takes one of its pending entries through all phases to its ack. */
  lemma {:induction false} DeliverOne(u: Setup, s: Sys, c: Consumer, i: nat) returns (t: Sys)
    requires InIdle(s, c) && i in s.pel[c] && i < |s.stream|
    ensures Carried(u, s, t)
    ensures t == s.(store := t.store, pel := s.pel[c := s.pel[c] - {i}], acked := s.acked + {i})
  {
    CarriedByStep(u, s, ReadPending(c, [i]));
    var s0 := Apply(u, s, ReadPending(c, [i]));
    var s1 := AllPhases(u, s0, c, i);
    CarriedByStep(u, s1, AckRuns(c));
    t := Apply(u, s1, AckRuns(c));
    CarriedTwice(u, s, s0, s1);
    CarriedTwice(u, s, s1, t);
    AckOne(u, s1, c, i);
    assert s1.workers[c := Idle] == s.workers;
  }

  // ---- everything ----

  lemma {:induction false} DrainOutbox(u: Setup, s: Sys) returns (t: Sys)
    ensures Carried(u, s, t) && t.outbox == {} && t.workers == s.workers && t.pel == s.pel
    ensures s.stream <= t.stream
    decreases s.outbox
  {
    if s.outbox == {} {
      CarriedSame(u, s);
      return s;
    }
    var e :| e in s.outbox;
    var step := Enqueue(e, ProductId(""), 0);
    CarriedByStep(u, s, step);
    t := DrainOutbox(u, Apply(u, s, step));
    CarriedTwice(u, s, Apply(u, s, step), t);
  }

  /** A worker that gives up its batch is free and still has it pending. */
  lemma {:induction false} FreeWorkers(u: Setup, s: Sys, busy: set<Consumer>) returns (t: Sys)
    requires s.pel.Keys == s.workers.Keys && forall c | c in s.workers && s.workers[c].Busy? :: c in busy
    ensures Carried(u, s, t) && t == s.(workers := t.workers, strays := t.strays)
    ensures t.workers.Keys == s.workers.Keys && forall c | c in t.workers :: t.workers[c].Idle?
    decreases busy
  {
    if c :| c in s.workers && s.workers[c].Busy? {
      CarriedByStep(u, s, Abandon(c));
      var m := Apply(u, s, Abandon(c));
      t := FreeWorkers(u, m, busy - {c});
      CarriedTwice(u, s, m, t);
    } else {
      CarriedSame(u, s);
      t := s;
    }
  }

  lemma {:induction false} DrainPel(u: Setup, s: Sys, c: Consumer) returns (t: Sys)
    requires InIdle(s, c) && forall i | i in s.pel[c] :: i < |s.stream|
    ensures Carried(u, s, t)
    ensures t == s.(store := t.store, pel := s.pel[c := {}], acked := t.acked)
    decreases s.pel[c]
  {
    if s.pel[c] == {} {
      CarriedSame(u, s);
      assert s.pel[c := {}] == s.pel;
      return s;
    }
    var i :| i in s.pel[c];
    var m := DeliverOne(u, s, c, i);
    t := DrainPel(u, m, c);
    CarriedTwice(u, s, m, t);
    assert m.pel[c := {}] == s.pel[c := {}];
  }

  predicate AllFree(s: Sys) {
    s.pel.Keys == s.workers.Keys && forall c | c in s.workers :: s.workers[c].Idle?
  }

  lemma {:induction false} DrainPels(u: Setup, s: Sys, todo: set<Consumer>) returns (t: Sys)
    requires AllFree(s) && forall c, i | c in s.pel && i in s.pel[c] :: i < |s.stream|
    requires todo <= s.pel.Keys && forall c | c in s.pel && c !in todo :: s.pel[c] == {}
    ensures Carried(u, s, t) && t == s.(store := t.store, pel := t.pel, acked := t.acked)
    ensures t.pel.Keys == s.pel.Keys && forall c | c in t.pel :: t.pel[c] == {}
    decreases todo
  {
    if todo == {} {
      CarriedSame(u, s);
      return s;
    }
    var c :| c in todo;
    var m := DrainPel(u, s, c);
    t := DrainPels(u, m, todo - {c});
    CarriedTwice(u, s, m, t);
  }

  /** A free worker with nothing pending reads, and delivers, what nobody has read. */
  lemma {:induction false} DrainStream(u: Setup, s: Sys, c: Consumer) returns (t: Sys)
    requires AllFree(s) && c in s.pel && s.cursor <= |s.stream| && forall d | d in s.pel :: s.pel[d] == {}
    ensures Carried(u, s, t) && t.stream == s.stream && t.outbox == s.outbox && t.cursor == |t.stream|
    ensures t.pel == s.pel
    decreases |s.stream| - s.cursor
  {
    if s.cursor == |s.stream| {
      CarriedSame(u, s);
      return s;
    }
    CarriedByStep(u, s, ReadNew(c, 1));
    var s1 := Apply(u, s, ReadNew(c, 1));
    CarriedByStep(u, s1, Abandon(c));
    var s2 := Apply(u, s1, Abandon(c));
    assert Span(s.cursor, 1) == {s.cursor};
    assert s2.pel[c] == {s.cursor} && s2.workers == s.workers;
    var s3 := DeliverOne(u, s2, c, s.cursor);
    assert s3.pel == s.pel;
    t := DrainStream(u, s3, c);
    CarriedTwice(u, s, s1, s2);
    CarriedTwice(u, s, s2, s3);
    CarriedTwice(u, s, s3, t);
  }

  /** No state is a dead end: wherever the pipeline has got to, as long as one
      consumer exists, a run that loses nothing more drains it, and then the audit is
      every buyer but those lost before. */
  lemma {:induction false} CanAlwaysDrain(u: Setup, s: Sys)
    requires Reachable(u, s) && s.pel.Keys != {}
    ensures exists t :: Carried(u, s, t) && Drained(t) && Reachable(u, t)
                        && OrderEmails(t.store, u.saleId) == s.sale.buyers - s.lost
  {
    var s1 := DrainOutbox(u, s);
    LaterGrows(u, s, s1);
    ReachableInv(u, s1);
    assert Holds(GroupPart, u, s1) && Holds(WorkersPart, u, s1);
    var s2 := FreeWorkers(u, s1, s1.workers.Keys);
    var s3 := DrainPels(u, s2, s2.pel.Keys);
    var c :| c in s.pel.Keys;
    var t := DrainStream(u, s3, c);
    CarriedTwice(u, s, s1, s2);
    CarriedTwice(u, s, s2, s3);
    CarriedTwice(u, s, s3, t);
    LaterGrows(u, s, t);
    DrainedAuditIsExact(u, t);
  }
}

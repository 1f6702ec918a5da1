/** The machine is not vacuous: a transaction left alone always gets its answer, and every
    serial run of the services is one of the machine's runs. */
module Completeness {
  import opened Schema
  import opened Services
  import opened Invariants
  import opened Runs
  import opened Machine
  import opened Footprints
  import opened Interleaving
  import opened Refinement
  import opened Serializability

  /** Some interleaved run leads there. */
  ghost predicate CanReach(init: Db, m: State) {
    exists steps :: Interleave(init, steps) == Some(m)
  }

  /** Some run, after the requests of `log`, answers q and leaves nothing open. */
  ghost predicate CanAnswer(init: Db, log: seq<Entry>, q: Request) {
    exists d, r :: CanReach(init, State(d, map[], log + [Entry(q, r)]))
  }

  lemma Advance(init: Db, m: State, a: Action)
    requires CanReach(init, m) && Constraints(m.db) && Enabled(m, a)
    ensures CanReach(init, Do(m, a))
  {
    hide Constraints, Enabled, Do;
    var steps :| Interleave(init, steps) == Some(m);
    assert (steps + [a])[..|steps|] == steps;
    assert Interleave(init, steps + [a]) == Some(Do(m, a));
  }

  lemma ReachedOk(init: Db, m: State)
    requires Inv(init) && CanReach(init, m)
    ensures MachineOk(init, m) && Constraints(m.db)
  {
    hide Inv, Constraints, TxnOk;
    var steps :| Interleave(init, steps) == Some(m);
    InterleavingKeeps(init, steps);
    InvBasics(m.db);
  }

  lemma AloneIsFree(m: State, tid: nat, locks: set<Lock>)
    requires m.txns.Keys <= {tid}
    ensures Free(m, tid, locks)
  {}

  lemma NoneLeft(m: State, tid: nat)
    requires m.txns.Keys == {tid}
    ensures m.txns - {tid} == map[]
  {}

  /** Only a purchase inserts an order, first and with more to come. */
  lemma OrderInsert(db: Db, x: Txn)
    requires TxnOk(db, x) && x.phase.Writing? && x.phase.pc < |x.phase.plan| && x.phase.plan[x.phase.pc].InsertOrder?
    ensures x.request.Purchase? && x.phase.plan[x.phase.pc].orderRow.key == x.request.key
    ensures |x.phase.plan| - x.phase.pc >= 2
  {
    hide WritesAfter, Claimed, RefundTargets, UnitCharge, OnlyMember, OrderFits, PurchaseBase, PaymentId;
    if x.request.Sweep? {
      hide SweepPlan;
      SweepInsertsNothing(db.reservations, x.request.rows);
    }
  }

  /** A transaction that is alone and has decided what to write runs to its answer: no
      constraint stops it, and a taken key or row id has an answer of its own. */
  lemma {:induction false} Finishable(init: Db, m: State, tid: nat)
    requires Inv(init) && CanReach(init, m) && m.txns.Keys == {tid} && m.txns[tid].phase.Writing?
    requires m.txns[tid].phase.pc <= |m.txns[tid].phase.plan|
    ensures CanAnswer(init, m.history, m.txns[tid].request)
    decreases |m.txns[tid].phase.plan| - m.txns[tid].phase.pc
  {
    hide Inv, Constraints, MachineOk, TxnOk, CanReach, Needs, Vacant, Clashes, Passes, Exec, Merge, Free;
    ReachedOk(init, m);
    OpenIsOk(init, m, tid);
    NoneLeft(m, tid);
    var x := m.txns[tid];
    var plan, pc := x.phase.plan, x.phase.pc;
    if pc == |plan| {
      Advance(init, m, Commit(tid));
    } else {
      var s := plan[pc];
      StatementPasses(init, m, tid);
      AloneIsFree(m, tid, Needs(s));
      if Vacant(m.db, s) {
        Advance(init, m, Execute(tid));
        Finishable(init, Do(m, Execute(tid)), tid);
      } else if Clashes(m.db, s) {
        Advance(init, m, Clash(tid));
      } else {
        InTheWay(m.db, s);
        OrderInsert(m.db, x);
        AloneIsFree(m, tid, {KeySlot(s.orderRow.key)});
        Advance(init, m, Collide(tid));
        Finishable(init, Do(m, Collide(tid)), tid);
      }
    }
  }

  lemma InTheWay(db: Db, s: Stmt)
    requires !Vacant(db, s) && !Clashes(db, s)
    ensures s.InsertOrder? && s.orderRow.key in db.keyIndex
  {}

  /** Either answered, or the only open transaction and past its first statement. */
  predicate Underway(m: State, log: seq<Entry>, q: Request) {
    || (m.txns == map[] && |m.history| == |log| + 1 && m.history == log + [Entry(q, m.history[|log|].reply)])
    || (m.txns.Keys == {0} && m.txns[0].request == q && m.history == log && !m.txns[0].phase.Waiting?
        && (m.txns[0].phase.Writing? ==> m.txns[0].phase.pc == 0))
  }

  lemma PutUnderway(m: State, x: Txn, log: seq<Entry>)
    requires m.txns.Keys == {0} && m.history == log && !x.phase.Waiting? && (x.phase.Writing? ==> x.phase.pc == 0)
    ensures Underway(Put(m, 0, x), log, x.request)
  {}

  lemma FinishUnderway(m: State, reply: Reply, log: seq<Entry>)
    requires m.txns.Keys == {0} && m.history == log
    ensures Underway(Finish(m, 0, reply), log, m.txns[0].request)
  {
    NoneLeft(m, 0);
  }

  lemma SettleUnderway(m: State, d: Decision, x: Txn, log: seq<Entry>)
    requires m.txns.Keys == {0} && m.history == log && x.request == m.txns[0].request
    ensures Underway(Settle(m, 0, d, x), log, x.request)
  {
    hide Underway, Put, Finish;
    match d
    case Refuse(e) => FinishUnderway(m, Raised(e), log);
    case Go(plan, reply) => PutUnderway(m, x.(phase := Writing(plan, 0, reply)), log);
  }

  /** A request begins with the rows of its sweep still unknown. */
  function Launched(q: Request): Request {
    if q.Sweep? then Sweep(q.now, []) else q
  }

  function RowsOf(q: Request): seq<Id> {
    if q.Sweep? then q.rows else []
  }

  lemma StartUnderway(m: State, q: Request, log: seq<Entry>)
    requires Constraints(m.db) && m.txns == map[0 := Txn(Launched(q), Waiting, NO_WRITES, {}, {})] && m.history == log
    requires CanStart(m, 0, RowsOf(q)) && !q.SetPaused?
    ensures Underway(AfterStart(m, 0, RowsOf(q)), log, q)
  {
    hide Constraints, Underway, Put, Finish, Settle, DecideCreate, DecideCancel, SweepPlan, Free, Stale;
    var x, db := m.txns[0], m.db;
    match q
    case Create(_, t, _, _, _) =>
      if t !in db.types || !db.types[t].status.Active? {
        FinishUnderway(m, Raised(NotFound), log);
      } else {
        EventKnown(db, t);
        var e := db.types[t].event;
        SettleUnderway(m, DecideCreate(q, db.types[t], db.events[e]), x.(locks := {TypeRow(t)}, events := {e}), log);
      }
    case Cancel(r, _) =>
      if r !in db.reservations {
        FinishUnderway(m, Raised(NotFound), log);
      } else {
        SettleUnderway(m, DecideCancel(q, db.reservations[r]), x.(locks := {ReservationRow(r)}), log);
      }
    case Purchase(r, _, _, _, _, _, _, _, _) =>
      if r !in db.reservations {
        FinishUnderway(m, Raised(NotFound), log);
      } else {
        TypeKnown(db, r);
        var row := db.reservations[r];
        var t := db.types[row.ticketType];
        PutUnderway(m, x.(phase := FetchedReservation(row, t, db.events[t.event].salesPaused),
                          locks := {ReservationRow(r)}, events := {t.event}), log);
      }
    case IssueRefund(o, _, _, _, _, _) =>
      if !MayRefund(db, q) {
        FinishUnderway(m, Raised(NotFound), log);
      } else if db.orders[o].status.Refunded? || db.orders[o].status.Failed? {
        FinishUnderway(m, Raised(InvalidRefund), log);
      } else {
        PutUnderway(m, x.(phase := FetchedOrder(db.orders[o]), locks := {OrderRow(o)}), log);
      }
    case Sweep(_, rows) =>
      SelectedExist(m, rows);
      PutUnderway(m, x.(request := q, phase := Writing(SweepPlan(db.reservations, rows), 0, SweepReply(|rows|)),
                        locks := set r | r in rows :: ReservationRow(r)), log);
  }

  lemma SelectedExist(m: State, rows: seq<Id>)
    requires 0 in m.txns && m.txns[0].request.Sweep? && CanStart(m, 0, rows)
    ensures forall r | r in rows :: r in m.db.reservations
  {
    StaleRowsExist(m.db, m.txns[0].request.now, rows);
  }

  lemma LookUnderway(m: State, q: Request, log: seq<Entry>)
    requires Underway(m, log, q) && m.txns != map[] && TxnOk(m.db, m.txns[0]) && !m.txns[0].phase.Writing?
    ensures Underway(AfterLook(m, 0), log, q)
    ensures AfterLook(m, 0).txns == map[] || AfterLook(m, 0).txns[0].phase.Writing?
  {
    hide Put, Finish, DecidePurchase, DecideRefund, RefundTargets, PurchaseBase, SameTerms, Decided;
    var x := m.txns[0];
    hide Underway;
    LookCases(m, x, log);
  }

  lemma LookCases(m: State, x: Txn, log: seq<Entry>)
    requires m.txns.Keys == {0} && m.txns[0] == x && m.history == log && TxnOk(m.db, x)
    requires x.phase.FetchedReservation? || x.phase.FetchedOrder?
    ensures Underway(AfterLook(m, 0), log, x.request)
    ensures AfterLook(m, 0).txns == map[] || AfterLook(m, 0).txns[0].phase.Writing?
  {
    hide Underway, DecidePurchase, DecideRefund, RefundTargets, PurchaseBase, SameTerms, CollisionPlan;
    NoneLeft(m, 0);
    match x.phase
    case FetchedReservation(row, t, paused) =>
      if x.request.key in m.db.keyIndex {
        PutUnderway(m, AfterLook(m, 0).txns[0], log);
      } else {
        SettleUnderway(m, DecidePurchase(x.request, row, t, paused), x, log);
      }
    case FetchedOrder(o) => SettleUnderway(m, DecideRefund(x.request, o, RefundTargets(m.db, x.request)), x, log);
    case _ =>
  }

  lemma UnderwayFinishes(init: Db, m: State, log: seq<Entry>, q: Request)
    requires Inv(init) && CanReach(init, m) && Underway(m, log, q)
    requires m.txns != map[] ==> m.txns[0].phase.Writing?
    ensures CanAnswer(init, log, q)
  {
    hide Inv, CanReach;
    if m.txns != map[] {
      Finishable(init, m, 0);
    } else {
      assert m == State(m.db, map[], log + [Entry(q, m.history[|log|].reply)]);
    }
  }

  /** Begin, select, look, write, commit: on a quiet machine every admissible request is answered. */
  lemma AloneIsAnswered(init: Db, m: State, q: Request)
    requires Inv(init) && CanReach(init, m) && m.txns == map[] && Constraints(m.db) && Admissible(m.db, q)
    requires q.Purchase? ==> !q.late
    ensures CanAnswer(init, m.history, q)
  {
    hide Inv, CanReach, Constraints, AfterStart, AfterLook, MachineOk, TxnOk, CanStart, Underway;
    if q.SetPaused? {
      Advance(init, m, Toggle(q.event, q.paused));
      assert Do(m, Toggle(q.event, q.paused)).history == m.history + [Entry(q, Done)];
    } else {
      var m1 := Put(m, 0, Txn(Launched(q), Waiting, NO_WRITES, {}, {}));
      Advance(init, m, Begin(0, Launched(q)));
      ReachedOk(init, m1);
      ReadyToStart(m1, q);
      var m2 := AfterStart(m1, 0, RowsOf(q));
      Advance(init, m1, Start(0, RowsOf(q)));
      StartUnderway(m1, q, m.history);
      ThenAnswered(init, m2, m.history, q);
    }
  }

  lemma ReadyToStart(m: State, q: Request)
    requires m.txns == map[0 := Txn(Launched(q), Waiting, NO_WRITES, {}, {})] && Admissible(m.db, q) && !q.SetPaused?
    ensures CanStart(m, 0, RowsOf(q))
  {
    hide Stale;
    forall locks ensures Free(m, 0, locks) {
      AloneIsFree(m, 0, locks);
    }
    hide Free;
  }

  lemma ThenAnswered(init: Db, m: State, log: seq<Entry>, q: Request)
    requires Inv(init) && CanReach(init, m) && Underway(m, log, q)
    ensures CanAnswer(init, log, q)
  {
    hide Inv, CanReach, Constraints, AfterLook, MachineOk, TxnOk;
    ReachedOk(init, m);
    if m.txns == map[] || m.txns[0].phase.Writing? {
      UnderwayFinishes(init, m, log, q);
    } else {
      OpenIsOk(init, m, 0);
      Advance(init, m, Look(0));
      LookUnderway(m, q, log);
      ReachedOk(init, AfterLook(m, 0));
      UnderwayFinishes(init, AfterLook(m, 0), log, q);
    }
  }

  predicate NoneLate(log: seq<Entry>) {
    forall e | e in log :: e.request.Purchase? ==> !e.request.late
  }

  /** Every serial run of the services, with the very same answers, is a run of the machine. A
      purchase that looked its key up too early is not a serial event and is left out. */
  lemma {:induction false} SerialRunsAreRuns(init: Db, log: seq<Entry>)
    requires Inv(init) && Replay(init, log).Some?
    requires NoneLate(log)
    ensures CanReach(init, State(Replay(init, log).value, map[], log))
  {
    hide Inv, Constraints, Apply, Admissible;
    if log == [] {
      assert Interleave(init, []) == Some(State(init, map[], []));
    } else {
      var n := |log| - 1;
      var before, q := log[..n], log[n].request;
      SerialRunsAreRuns(init, before);
      var m := State(Replay(init, before).value, map[], before);
      ReachedOk(init, m);
      AloneIsAnswered(init, m, q);
      var d, r :| CanReach(init, State(d, map[], before + [Entry(q, r)]));
      var steps :| Interleave(init, steps) == Some(State(d, map[], before + [Entry(q, r)]));
      Serializable(init, steps);
      ReplayAppend(init, before, Entry(q, r));
      assert before + [Entry(q, r)] == log;
    }
  }
}

/** Whole interleaved runs: serializable in commit order, and never stopped by a counter's constraint. */
module Serializability {
  import opened Schema
  import opened Services
  import opened Invariants
  import opened Preservation
  import opened Runs
  import opened Machine
  import opened SerialPlans
  import opened Interleaving
  import opened Refinement

  /** The state after a list of steps, or None when one of them was not enabled. The schema's
      constraints are what makes a step meaningful; they always hold (Serializable). */
  ghost function Interleave(init: Db, steps: seq<Action>): Option<State> {
    if steps == [] then Some(State(init, map[], []))
    else
      var n := |steps| - 1;
      match Interleave(init, steps[..n])
      case None => None
      case Some(m) => if Constraints(m.db) && Enabled(m, steps[n]) then Some(Do(m, steps[n])) else None
  }

  lemma {:induction false} InterleavingKeeps(init: Db, steps: seq<Action>)
    requires Inv(init) && Interleave(init, steps).Some?
    ensures MachineOk(init, Interleave(init, steps).value)
  {
    hide Inv, TxnOk, Enabled, Do;
    if steps != [] {
      var n := |steps| - 1;
      InterleavingKeeps(init, steps[..n]);
      StepKeeps(init, Interleave(init, steps[..n]).value, steps[n]);
    }
  }

  /** Every interleaving commits exactly what the atomic services commit when they run one
      after another in the order of the history, and answers every finished request alike. */
  lemma Serializable(init: Db, steps: seq<Action>)
    requires Inv(init) && Interleave(init, steps).Some?
    ensures var m := Interleave(init, steps).value; Replay(init, m.history) == Some(m.db) && Inv(m.db)
  {
    hide Inv, TxnOk;
    InterleavingKeeps(init, steps);
  }

  // ---------- no counter UPDATE of an open transaction can trip a CHECK ----------

  lemma CreatePasses(db: Db, x: Txn, plan: seq<Stmt>, reply: Reply)
    requires Inv(db) && x.request.Create? && CreateDecided(db, x, plan, reply)
    ensures Passes(db, NO_WRITES, plan[0])
  {
    hide Inv;
    TypeRowFits(db, x.request.ticketType);
    OverlayNothing(db.types);
  }

  lemma TypeRowFits(db: Db, t: Id)
    requires Inv(db) && t in db.types
    ensures TypeFits(db.types[t])
  {
    hide CountersExact, OrdersOk, OrdersMatch, ReservationsOk, TicketsOk;
  }

  lemma ReleasePasses(db: Db, w: Db, r: Id)
    requires Constraints(Merge(db, w)) && r in Merge(db, w).reservations && Releasable(Merge(db, w), r)
    ensures var row := Merge(db, w).reservations[r]; Passes(db, w, AddCounters(row.ticketType, 0, -row.quantity))
  {
    hide Constraints, TypeFits;
  }

  /** Three statements per row, in the order of the rows. */
  lemma {:induction false} SweepPlanShape(rs: map<Id, Reservation>, rows: seq<Id>, i: nat)
    requires i < |rows| && forall r | r in rows :: r in rs
    ensures |SweepPlan(rs, rows)| == 3 * |rows| && |SweepPlan(rs, rows[..i])| == 3 * i
    ensures SweepPlan(rs, rows[..i]) <= SweepPlan(rs, rows)
    ensures SweepPlan(rs, rows)[3 * i..3 * i + 3] ==
            ReleasePlan(rows[i], rs[rows[i]], ReservationStatus.Expired, "system_sweep",
                        HoldExpired(rows[i], rs[rows[i]].quantity))
  {
    hide ReleasePlan;
    var n := |rows| - 1;
    assert forall r | r in rows[..n] :: r in rows;
    var last := ReleasePlan(rows[n], rs[rows[n]], ReservationStatus.Expired, "system_sweep",
                            HoldExpired(rows[n], rs[rows[n]].quantity));
    ReleaseLength(rows[n], rs[rows[n]], ReservationStatus.Expired, "system_sweep",
                  HoldExpired(rows[n], rs[rows[n]].quantity));
    if n > 0 {
      SweepPlanShape(rs, rows[..n], if i < n then i else 0);
    }
    if i < n {
      assert rows[..n][..i] == rows[..i];
      assert SweepPlan(rs, rows)[3 * i..3 * i + 3] == SweepPlan(rs, rows[..n])[3 * i..3 * i + 3];
    } else {
      assert SweepPlan(rs, rows)[3 * i..3 * i + 3] == last;
    }
  }

  /** Before its i-th row the sweep sees the database with the earlier rows expired. */
  lemma SweepSees(db: Db, now: int, rows: seq<Id>, i: nat)
    requires Inv(db) && Selection(db, now, rows) && i < |rows|
    ensures var plan := SweepPlan(db.reservations, rows);
            3 * i < |plan| && ExpireRows(db, rows[..i]) == Some(Merge(db, WritesAfter(db, plan, 3 * i)))
  {
    hide Inv, Constraints, Merge, WritesAfter, Exec, NO_WRITES, Release, Releasable;
    InvBasics(db);
    var before := rows[..i];
    assert Selection(db, now, before);
    SweepPlanShape(db.reservations, rows, i);
    var plan, prefix := SweepPlan(db.reservations, rows), SweepPlan(db.reservations, before);
    SweepSerial(db, now, before);
    assert plan == prefix + plan[3 * i..];
    PrefixWrites(db, prefix, plan[3 * i..], 3 * i);
  }

  lemma SweepPasses(db: Db, now: int, rows: seq<Id>, i: nat)
    requires Inv(db) && Selection(db, now, rows) && i < |rows|
    ensures var plan := SweepPlan(db.reservations, rows);
            3 * i < |plan| && Passes(db, WritesAfter(db, plan, 3 * i), plan[3 * i])
  {
    hide Inv, Constraints, Merge, Passes, Releasable, WritesAfter, Exec, NO_WRITES, Release, ExpireRows;
    InvBasics(db);
    var before := rows[..i];
    assert Selection(db, now, before) && rows[i] !in before && Stale(db, now, rows[i]);
    SweepSees(db, now, rows, i);
    ExpireRowsKeepsInv(db, now, before);
    var plan, d := SweepPlan(db.reservations, rows), ExpireRows(db, before).value;
    InvBasics(d);
    ActiveIsReleasable(d, rows[i]);
    ReleasePasses(db, WritesAfter(db, plan, 3 * i), rows[i]);
    SweepPlanShape(db.reservations, rows, i);
    assert plan[3 * i] == plan[3 * i..3 * i + 3][0];
  }

  /** After these statements no counter of the transaction's own is written yet. */
  lemma PassesOnCommitted(db: Db, w: Db, t: Id, sold: int, held: int)
    requires w.types == map[] && t in db.types && TypeFits(Move(db.types[t], sold, held))
    ensures Passes(db, w, AddCounters(t, sold, held))
  {
    OverlayNothing(db.types);
  }

  lemma PurchasePasses(db: Db, x: Txn, plan: seq<Stmt>, reply: Reply, pc: nat)
    requires Inv(db) && x.request.Purchase? && PurchaseDecided(db, x, plan, reply) && pc < |plan|
    ensures Passes(db, WritesAfter(db, plan, pc), plan[pc])
  {
    hide Inv, OrderFits, TypeFits, Passes, WritesAfter;
    var row := db.reservations[x.request.reservation];
    MoveFits(db, x.request.reservation);
    NextWrites(db, plan, 0);
    if x.request.capture.Approved? && pc == 1 {
      PassesOnCommitted(db, WritesAfter(db, plan, 1), row.ticketType, row.quantity, -row.quantity);
    } else {
      OthersPass(db, WritesAfter(db, plan, pc), plan[pc]);
    }
  }

  lemma OthersPass(db: Db, w: Db, s: Stmt)
    requires !s.AddCounters? && !s.WriteHeld?
    ensures Passes(db, w, s)
  {}

  lemma RefundPasses(db: Db, x: Txn, plan: seq<Stmt>, reply: Reply, pc: nat)
    requires Inv(db) && x.request.IssueRefund? && RefundDecided(db, x, plan, reply) && pc < |plan|
    requires pc > 0 ==> Vacant(db, plan[0])
    ensures Passes(db, WritesAfter(db, plan, pc), plan[pc])
  {
    hide Inv, TypeFits, Passes, WritesAfter, UnitCharge, OnlyMember, RefundTargets, Matching, PaymentId;
    var f, o := x.request, db.orders[x.request.order];
    if pc == 3 {
      RefundMoveFits(db, f);
      MatchingTargets(db, f);
      RefundRowsWritten(db, f, o, RefundTargets(db, f), plan[2].ticket);
      PassesOnCommitted(db, WritesAfter(db, plan, 3), o.ticketType, -|RefundTargets(db, f)|, 0);
    } else {
      OthersPass(db, WritesAfter(db, plan, pc), plan[pc]);
    }
  }

  lemma StatementPasses(init: Db, m: State, tid: nat)
    requires MachineOk(init, m) && tid in m.txns
    requires m.txns[tid].phase.Writing? && m.txns[tid].phase.pc < |m.txns[tid].phase.plan|
    ensures Passes(m.db, m.txns[tid].writes, m.txns[tid].phase.plan[m.txns[tid].phase.pc])
  {
    hide MachineOk, Inv, Passes, WritesAfter, CreateDecided, PurchaseDecided, RefundDecided, SweepPlan, DecidePurchase;
    OpenIsOk(init, m, tid);
    InvBasics(m.db);
    var x, db := m.txns[tid], m.db;
    var plan, pc, reply := x.phase.plan, x.phase.pc, x.phase.reply;
    NextWrites(db, plan, pc);
    match x.request
    case Create(_, _, _, _, _) => PlanPasses(db, x, plan, reply, pc);
    case Cancel(_, _) => PlanPasses(db, x, plan, reply, pc);
    case Purchase(_, _, _, _, _, _, _, _, _) =>
      if Duplicate(db, x, plan, reply) {
        OthersPass(db, x.writes, plan[pc]);
      } else {
        PurchasePasses(db, x, plan, reply, pc);
      }
    case IssueRefund(_, _, _, _, _, _) => RefundPasses(db, x, plan, reply, pc);
    case Sweep(now, rows) => SweepStatementPasses(db, x, pc);
    case SetPaused(_, _) =>
  }

  lemma PlanPasses(db: Db, x: Txn, plan: seq<Stmt>, reply: Reply, pc: nat)
    requires Inv(db) && (x.request.Create? || x.request.Cancel?) && Decided(db, x, plan, reply) && pc < |plan|
    ensures Passes(db, WritesAfter(db, plan, pc), plan[pc])
  {
    hide Inv, Passes, WritesAfter, Merge, NO_WRITES;
    NextWrites(db, plan, 0);
    if pc > 0 {
      OthersPass(db, WritesAfter(db, plan, pc), plan[pc]);
    } else if x.request.Create? {
      CreatePasses(db, x, plan, reply);
    } else {
      InvBasics(db);
      EmptyPlan(db);
      ActiveIsReleasable(db, x.request.reservation);
      ReleasePasses(db, NO_WRITES, x.request.reservation);
    }
  }

  lemma SweepStatementPasses(db: Db, x: Txn, pc: nat)
    requires Inv(db) && x.request.Sweep? && Selection(db, x.request.now, x.request.rows)
    requires pc < |SweepPlan(db.reservations, x.request.rows)|
    ensures var plan := SweepPlan(db.reservations, x.request.rows); Passes(db, WritesAfter(db, plan, pc), plan[pc])
  {
    hide Inv, Passes, WritesAfter, SweepPlan;
    var rows, plan, i := x.request.rows, SweepPlan(db.reservations, x.request.rows), pc / 3;
    SweepEmpty(db.reservations, rows);
    SweepPlanShape(db.reservations, rows, 0);
    SweepPlanShape(db.reservations, rows, i);
    if pc == 3 * i {
      SweepPasses(db, x.request.now, rows, i);
    } else {
      assert plan[pc] == plan[3 * i..3 * i + 3][pc - 3 * i];
      OthersPass(db, WritesAfter(db, plan, pc), plan[pc]);
    }
  }

  lemma SweepEmpty(rs: map<Id, Reservation>, rows: seq<Id>)
    requires forall r | r in rows :: r in rs
    ensures rows == [] ==> SweepPlan(rs, rows) == []
  {}

  /** At no point of an interleaved run can the next counter UPDATE of an open transaction
      violate a CHECK constraint, so a payment that was captured is never rolled back by one. */
  lemma NoConstraintTrips(init: Db, steps: seq<Action>, tid: nat)
    requires Inv(init) && Interleave(init, steps).Some?
    requires tid in Interleave(init, steps).value.txns
    requires var x := Interleave(init, steps).value.txns[tid]; x.phase.Writing? && x.phase.pc < |x.phase.plan|
    ensures var m := Interleave(init, steps).value;
            Passes(m.db, m.txns[tid].writes, m.txns[tid].phase.plan[m.txns[tid].phase.pc])
  {
    hide Inv, MachineOk, Passes;
    InterleavingKeeps(init, steps);
    StatementPasses(init, Interleave(init, steps).value, tid);
  }
}

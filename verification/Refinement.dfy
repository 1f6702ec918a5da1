/** Every interleaving refines a serial run: the committed database is always what the atomic
    services produce when run one after another in the order of the history. */
module Refinement {
  import opened Schema
  import opened Services
  import opened Invariants
  import opened Preservation
  import opened Runs
  import opened Machine
  import opened Footprints
  import opened SerialPlans
  import opened Interleaving

  // ---------- an open transaction does not notice other transactions ----------

  predicate EventsKept(a: map<Id, Event>, b: map<Id, Event>, events: set<Id>) {
    forall e | e in events && e in a :: e in b && b[e] == a[e]
  }

  /** What another transaction may have done meanwhile. */
  predicate Undisturbed(db: Db, d: Db, x: Txn, locks: set<Lock>) {
    && Confined(db, d, locks) && x.locks !! locks
    && EventsKept(db.events, d.events, x.events)
    && (forall k | k in db.keyIndex :: k in d.keyIndex && d.keyIndex[k] == db.keyIndex[k])
  }

  lemma LockedType(db: Db, d: Db, x: Txn, locks: set<Lock>, t: Id)
    requires Undisturbed(db, d, x, locks) && t in db.types
    ensures t in d.types && SameTerms(db.types[t], d.types[t])
    ensures TypeRow(t) in x.locks ==> d.types[t] == db.types[t]
    ensures db.types[t].event in db.events && db.types[t].event in x.events ==>
              db.types[t].event in d.events && d.events[db.types[t].event] == db.events[db.types[t].event]
  {
    hide ReservationsConfined, OrdersConfined, KeysConfined, TicketsConfined, RefundsConfined;
  }

  lemma LockedReservation(db: Db, d: Db, x: Txn, locks: set<Lock>, r: Id)
    requires Undisturbed(db, d, x, locks) && r in db.reservations && ReservationRow(r) in x.locks
    ensures r in d.reservations && d.reservations[r] == db.reservations[r]
  {
    hide TypesConfined, OrdersConfined, KeysConfined, TicketsConfined, RefundsConfined;
  }

  lemma LockedOrder(db: Db, d: Db, x: Txn, locks: set<Lock>, o: Id)
    requires Undisturbed(db, d, x, locks) && o in db.orders && OrderRow(o) in x.locks
    ensures o in d.orders && d.orders[o] == db.orders[o]
    ensures ActiveTickets(d.tickets, o) == ActiveTickets(db.tickets, o)
  {
    hide TypesConfined, ReservationsConfined, KeysConfined, RefundsConfined;
    MatchingAgrees(db.tickets, d.tickets, map[], locks, o, []);
    assert db.tickets + map[] == db.tickets && d.tickets + map[] == d.tickets;
  }

  lemma {:induction false} SweepPlanAgrees(a: map<Id, Reservation>, b: map<Id, Reservation>, rows: seq<Id>)
    requires forall r | r in rows :: r in a && r in b && a[r] == b[r]
    ensures SweepPlan(a, rows) == SweepPlan(b, rows)
  {
    hide ReleasePlan;
    if rows != [] {
      var n := |rows| - 1;
      assert forall r | r in rows[..n] :: r in rows;
      SweepPlanAgrees(a, b, rows[..n]);
      assert rows[n] in rows;
    }
  }

  /** Only the columns that never change enter the decision about a purchase. */
  lemma DecisionReadsTerms(p: Request, row: Reservation, a: TicketType, b: TicketType, paused: bool)
    requires p.Purchase? && SameTerms(a, b)
    ensures DecidePurchase(p, row, a, paused) == DecidePurchase(p, row, b, paused)
  {
    assert NewOrder(p, row, a) == NewOrder(p, row, b);
    hide NewOrder, OrderFits, PurchasePlan;
  }

  lemma PurchaseBaseStable(db: Db, d: Db, x: Txn, locks: set<Lock>)
    requires Undisturbed(db, d, x, locks) && x.request.Purchase? && PurchaseBase(db, x)
    ensures PurchaseBase(d, x)
    ensures var row := db.reservations[x.request.reservation];
            && row == d.reservations[x.request.reservation]
            && SameTerms(db.types[row.ticketType], d.types[row.ticketType])
            && d.events[db.types[row.ticketType].event] == db.events[db.types[row.ticketType].event]
  {
    hide Undisturbed;
    LockedReservation(db, d, x, locks, x.request.reservation);
    LockedType(db, d, x, locks, db.reservations[x.request.reservation].ticketType);
  }

  lemma RefundBaseStable(db: Db, d: Db, x: Txn, locks: set<Lock>)
    requires Undisturbed(db, d, x, locks) && x.request.IssueRefund? && RefundBase(db, x)
    ensures RefundBase(d, x) && d.orders[x.request.order] == db.orders[x.request.order]
    ensures RefundTargets(d, x.request) == RefundTargets(db, x.request)
  {
    hide Undisturbed, ActiveTickets;
    LockedOrder(db, d, x, locks, x.request.order);
  }

  lemma DecidedStable(db: Db, d: Db, x: Txn, locks: set<Lock>, plan: seq<Stmt>, reply: Reply)
    requires Undisturbed(db, d, x, locks) && Decided(db, x, plan, reply)
    ensures Decided(d, x, plan, reply)
  {
    match x.request
    case Create(_, t, _, _, _) =>
      hide Undisturbed, DecideCreate;
      LockedType(db, d, x, locks, t);
    case Cancel(r, _) =>
      hide Undisturbed, DecideCancel;
      LockedReservation(db, d, x, locks, r);
    case Purchase(r, _, _, _, _, _, _, _, _) => PurchaseDecidedStable(db, d, x, locks, plan, reply);
    case IssueRefund(_, _, _, _, _, _) =>
      hide Undisturbed, DecideRefund, RefundBase, RefundTargets;
      RefundBaseStable(db, d, x, locks);
    case Sweep(_, rows) =>
      hide Undisturbed, SweepPlan;
      forall r | r in rows ensures r in d.reservations && d.reservations[r] == db.reservations[r] {
        assert Stale(db, x.request.now, r);
        LockedReservation(db, d, x, locks, r);
      }
      SweepPlanAgrees(db.reservations, d.reservations, rows);
    case SetPaused(_, _) =>
  }

  lemma PurchaseDecidedStable(db: Db, d: Db, x: Txn, locks: set<Lock>, plan: seq<Stmt>, reply: Reply)
    requires Undisturbed(db, d, x, locks) && x.request.Purchase?
    requires PurchaseDecided(db, x, plan, reply) || Duplicate(db, x, plan, reply)
    ensures PurchaseDecided(d, x, plan, reply) || Duplicate(d, x, plan, reply)
  {
    hide Confined, DecidePurchase, SameTerms, CollisionPlan;
    PurchaseBaseStable(db, d, x, locks);
    var row := db.reservations[x.request.reservation];
    var a, b := db.types[row.ticketType], d.types[row.ticketType];
    DecisionReadsTerms(x.request, row, a, b, db.events[a.event].salesPaused);
    TermsShareEvent(a, b);
  }

  lemma TermsShareEvent(a: TicketType, b: TicketType)
    requires SameTerms(a, b)
    ensures a.event == b.event
  {}

  lemma TermsTransitive(a: TicketType, b: TicketType, c: TicketType)
    requires SameTerms(a, b) && SameTerms(b, c)
    ensures SameTerms(a, c) && a.event == b.event == c.event
  {}

  lemma TxnStable(db: Db, d: Db, x: Txn, locks: set<Lock>)
    requires Undisturbed(db, d, x, locks) && TxnOk(db, x)
    ensures TxnOk(d, x)
  {
    hide Confined, Claimed, WritesAfter, Decided, RefundBase, SameTerms;
    match x.phase
    case Waiting =>
    case FetchedReservation(row, t, paused) =>
      PurchaseBaseStable(db, d, x, locks);
      TermsTransitive(t, db.types[row.ticketType], d.types[row.ticketType]);
    case FetchedOrder(_) => RefundBaseStable(db, d, x, locks);
    case Writing(plan, pc, reply) =>
      DecidedStable(db, d, x, locks, plan, reply);
      ClaimsAgree(db, d, plan, pc, x.locks, locks);
      WritesAgree(db, d, plan, pc, x.locks, locks);
  }

  // ---------- a transaction that commits does what its service does ----------

  lemma CreateCommits(db: Db, x: Txn, plan: seq<Stmt>, reply: Reply)
    requires Inv(db) && x.request.Create? && CreateDecided(db, x, plan, reply) && Claimed(db, plan, |plan|, x.locks)
    ensures Constraints(db) && CreateReservation(db, x.request) == Outcome(Committed(db, plan), reply)
  {
    hide Inv, Constraints, Committed, CreateReservation;
    InvBasics(db);
    var c := x.request;
    assert Vacant(db, plan[1]);
    CreateSerial(db, c, db.types[c.ticketType], db.events[db.types[c.ticketType].event]);
  }

  lemma PurchaseCommits(db: Db, x: Txn, plan: seq<Stmt>, reply: Reply)
    requires Inv(db) && x.request.Purchase? && PurchaseDecided(db, x, plan, reply)
    requires Claimed(db, plan, |plan|, x.locks)
    ensures Admissible(db, x.request) && Constraints(db)
    ensures ProcessPurchase(db, x.request) == Outcome(Committed(db, plan), reply)
  {
    hide Inv, Constraints, Committed, ProcessPurchase, OrderFits;
    InvBasics(db);
    var p := x.request;
    var row := db.reservations[p.reservation];
    assert Vacant(db, plan[0]);
    if p.capture.Approved? {
      assert Vacant(db, plan[2]);
    }
    PurchaseSerial(db, p, row, db.types[row.ticketType]);
  }

  lemma RefundCommits(db: Db, x: Txn, plan: seq<Stmt>, reply: Reply)
    requires Inv(db) && x.request.IssueRefund? && RefundDecided(db, x, plan, reply)
    requires Claimed(db, plan, |plan|, x.locks)
    ensures Constraints(db) && RefundOrder(db, x.request) == Outcome(Committed(db, plan), reply)
  {
    hide Inv, Constraints, Committed, RefundOrder, UnitCharge, OnlyMember, RefundTargets;
    InvBasics(db);
    assert Vacant(db, plan[0]);
    RefundSerial(db, x.request, db.orders[x.request.order]);
  }

  lemma TxnCommits(db: Db, x: Txn)
    requires Inv(db) && TxnOk(db, x) && x.phase.Writing? && x.phase.pc == |x.phase.plan|
    ensures Constraints(db) && Admissible(db, x.request)
    ensures Apply(db, x.request) == Outcome(Merge(db, x.writes), x.phase.reply)
  {
    hide Inv, Constraints, Merge, WritesAfter, Claimed, CreateDecided, RefundDecided, DecideCancel, DecidePurchase,
         CreateReservation, CancelReservation, ProcessPurchase, RefundOrder, SweepPlan;
    InvBasics(db);
    var plan, reply := x.phase.plan, x.phase.reply;
    match x.request
    case Create(_, _, _, _, _) =>
      CreateCommits(db, x, plan, reply);
      CreateQuantity(db, x, plan, reply);
    case Cancel(_, _) => CancelSerial(db, x.request);
    case Purchase(_, _, _, _, _, _, _, _, _) =>
      if Duplicate(db, x, plan, reply) {
        CollisionSerial(db, x.request);
        DuplicateAnswered(db, x.request);
      } else {
        PurchaseCommits(db, x, plan, reply);
      }
    case IssueRefund(_, _, _, _, _, _) => RefundCommits(db, x, plan, reply);
    case Sweep(now, rows) => SweepSerial(db, now, rows);
    case SetPaused(_, _) =>
  }

  lemma CreateQuantity(db: Db, x: Txn, plan: seq<Stmt>, reply: Reply)
    requires x.request.Create? && CreateDecided(db, x, plan, reply)
    ensures x.request.quantity >= 1
  {}

  lemma DuplicateAnswered(db: Db, p: Request)
    requires Constraints(db) && p.Purchase? && !p.late && p.reservation in db.reservations && p.key in db.keyIndex
    ensures ProcessPurchase(db, p) == Collision(db, p)
  {}

  // ---------- every step keeps the machine's invariant ----------

  /** A step that only changes one open transaction. */
  lemma PutKeeps(init: Db, m: State, tid: nat, x: Txn)
    requires MachineOk(init, m) && TxnOk(m.db, x) && Free(m, tid, x.locks)
    ensures MachineOk(init, Put(m, tid, x))
  {
    hide Inv, TxnOk;
  }

  /** An answer that is the service's own and leaves the database as it is. */
  lemma FinishKeeps(init: Db, m: State, tid: nat, reply: Reply)
    requires MachineOk(init, m) && tid in m.txns && Constraints(m.db)
    requires Admissible(m.db, m.txns[tid].request) && Apply(m.db, m.txns[tid].request) == Outcome(m.db, reply)
    ensures MachineOk(init, Finish(m, tid, reply))
  {
    hide Inv, TxnOk, Apply, Admissible, Constraints;
    ReplayAppend(init, m.history, Entry(m.txns[tid].request, reply));
  }

  lemma WritingBegins(db: Db, x: Txn, plan: seq<Stmt>, reply: Reply)
    requires x.writes == NO_WRITES && Decided(db, x, plan, reply)
    ensures TxnOk(db, x.(phase := Writing(plan, 0, reply)))
  {
    var x' := x.(phase := Writing(plan, 0, reply));
    assert Decided(db, x', plan, reply) by {
      match x.request
      case Create(_, _, _, _, _) =>
      case Cancel(_, _) =>
      case Purchase(_, _, _, _, _, _, _, _, _) =>
      case IssueRefund(_, _, _, _, _, _) =>
      case Sweep(_, _) =>
      case SetPaused(_, _) =>
    }
  }

  /** Refusals are the service's own answers; otherwise the decided statements begin. */
  lemma SettleKeeps(init: Db, m: State, tid: nat, d: Decision, x: Txn)
    requires MachineOk(init, m) && tid in m.txns && Constraints(m.db) && x.writes == NO_WRITES && Free(m, tid, x.locks)
    requires d.Refuse? ==> Admissible(m.db, m.txns[tid].request)
                           && Apply(m.db, m.txns[tid].request) == Outcome(m.db, Raised(d.error))
    requires d.Go? ==> Decided(m.db, x, d.plan, d.reply)
    ensures MachineOk(init, Settle(m, tid, d, x))
  {
    hide MachineOk, Constraints, Apply, Admissible, Decided, TxnOk, Finish, Put, Free;
    match d
    case Refuse(e) => FinishKeeps(init, m, tid, Raised(e));
    case Go(plan, reply) =>
      WritingBegins(m.db, x, plan, reply);
      PutKeeps(init, m, tid, x.(phase := Writing(plan, 0, reply)));
  }

  lemma NoLocksFree(m: State, tid: nat)
    ensures Free(m, tid, {})
  {}

  lemma OpenIsOk(init: Db, m: State, tid: nat)
    requires MachineOk(init, m) && tid in m.txns
    ensures TxnOk(m.db, m.txns[tid]) && Inv(m.db) && Constraints(m.db)
    ensures Free(m, tid, m.txns[tid].locks)
  {
    hide TxnOk;
    InvBasics(m.db);
  }

  lemma StartCreate(init: Db, m: State, tid: nat, rows: seq<Id>)
    requires MachineOk(init, m) && tid in m.txns && m.txns[tid].phase.Waiting? && m.txns[tid].request.Create?
    requires CanStart(m, tid, rows) && Constraints(m.db)
    ensures MachineOk(init, AfterStart(m, tid, rows))
  {
    hide MachineOk, Inv, Constraints, Committed, Settle, Finish, DecideCreate, Free;
    OpenIsOk(init, m, tid);
    InvBasics(m.db);
    var x, db := m.txns[tid], m.db;
    var c := x.request;
    var t := c.ticketType;
    if t !in db.types || !db.types[t].status.Active? {
      FinishKeeps(init, m, tid, Raised(NotFound));
    } else {
      var e := db.types[t].event;
      var d, x' := DecideCreate(c, db.types[t], db.events[e]), x.(locks := {TypeRow(t)}, events := {e});
      if d.Refuse? {
        CreateSerial(db, c, db.types[t], db.events[e]);
      }
      SettleKeeps(init, m, tid, d, x');
    }
  }

  lemma StartCancel(init: Db, m: State, tid: nat, rows: seq<Id>)
    requires MachineOk(init, m) && tid in m.txns && m.txns[tid].phase.Waiting? && m.txns[tid].request.Cancel?
    requires CanStart(m, tid, rows) && Constraints(m.db)
    ensures MachineOk(init, AfterStart(m, tid, rows))
  {
    hide MachineOk, Inv, Constraints, Committed, Settle, Finish, DecideCancel, Free;
    OpenIsOk(init, m, tid);
    InvBasics(m.db);
    var x, c := m.txns[tid], m.txns[tid].request;
    if c.reservation !in m.db.reservations {
      FinishKeeps(init, m, tid, Raised(NotFound));
    } else {
      CancelSerial(m.db, c);
      SettleKeeps(init, m, tid, DecideCancel(c, m.db.reservations[c.reservation]),
                  x.(locks := {ReservationRow(c.reservation)}));
    }
  }

  lemma StartPurchase(init: Db, m: State, tid: nat, rows: seq<Id>)
    requires MachineOk(init, m) && tid in m.txns && m.txns[tid].phase.Waiting? && m.txns[tid].request.Purchase?
    requires CanStart(m, tid, rows) && Constraints(m.db)
    ensures MachineOk(init, AfterStart(m, tid, rows))
  {
    hide MachineOk, Inv, Constraints, Put, Finish, Free;
    OpenIsOk(init, m, tid);
    InvBasics(m.db);
    var x, p, db := m.txns[tid], m.txns[tid].request, m.db;
    if p.reservation !in db.reservations {
      FinishKeeps(init, m, tid, Raised(NotFound));
    } else {
      var row := db.reservations[p.reservation];
      var t := db.types[row.ticketType];
      PutKeeps(init, m, tid, x.(phase := FetchedReservation(row, t, db.events[t.event].salesPaused),
                                locks := {ReservationRow(p.reservation)}, events := {t.event}));
    }
  }

  lemma StartRefund(init: Db, m: State, tid: nat, rows: seq<Id>)
    requires MachineOk(init, m) && tid in m.txns && m.txns[tid].phase.Waiting? && m.txns[tid].request.IssueRefund?
    requires CanStart(m, tid, rows) && Constraints(m.db)
    ensures MachineOk(init, AfterStart(m, tid, rows))
  {
    hide MachineOk, Inv, Constraints, Put, Finish, Free, UnitCharge, RefundTargets;
    OpenIsOk(init, m, tid);
    InvBasics(m.db);
    var x, f := m.txns[tid], m.txns[tid].request;
    if !MayRefund(m.db, f) {
      FinishKeeps(init, m, tid, Raised(NotFound));
    } else {
      var o := m.db.orders[f.order];
      if o.status.Refunded? || o.status.Failed? {
        FinishKeeps(init, m, tid, Raised(InvalidRefund));
      } else {
        PutKeeps(init, m, tid, x.(phase := FetchedOrder(o), locks := {OrderRow(f.order)}));
      }
    }
  }

  lemma StartSweep(init: Db, m: State, tid: nat, rows: seq<Id>)
    requires MachineOk(init, m) && tid in m.txns && m.txns[tid].phase.Waiting? && m.txns[tid].request.Sweep?
    requires CanStart(m, tid, rows) && Constraints(m.db)
    ensures MachineOk(init, AfterStart(m, tid, rows))
  {
    hide MachineOk, Inv, Constraints, Put, SweepPlan, Stale;
    OpenIsOk(init, m, tid);
    var x := m.txns[tid];
    var locks: set<Lock> := set r | r in rows :: ReservationRow(r);
    assert forall r | r in rows :: r in m.db.reservations by { StaleRowsExist(m.db, x.request.now, rows); }
    var x' := x.(request := Sweep(x.request.now, rows), locks := locks);
    assert Free(m, tid, locks) by { RowsFree(m, tid, rows); }
    var plan := SweepPlan(m.db.reservations, rows);
    WritingBegins(m.db, x', plan, SweepReply(|rows|));
    PutKeeps(init, m, tid, x'.(phase := Writing(plan, 0, SweepReply(|rows|))));
  }

  lemma StaleRowsExist(db: Db, now: int, rows: seq<Id>)
    requires forall r | r in rows :: Stale(db, now, r)
    ensures forall r | r in rows :: r in db.reservations
  {}

  lemma RowsFree(m: State, tid: nat, rows: seq<Id>)
    requires forall r | r in rows :: Free(m, tid, {ReservationRow(r)})
    ensures Free(m, tid, set r | r in rows :: ReservationRow(r))
  {
    forall u | u in m.txns && u != tid ensures m.txns[u].locks !! (set r | r in rows :: ReservationRow(r)) {
      forall r | r in rows ensures ReservationRow(r) !in m.txns[u].locks {
        assert m.txns[u].locks !! {ReservationRow(r)};
      }
    }
  }

  lemma LookPurchase(init: Db, m: State, tid: nat)
    requires MachineOk(init, m) && tid in m.txns && m.txns[tid].phase.FetchedReservation?
    ensures MachineOk(init, AfterLook(m, tid))
  {
    hide MachineOk, Inv, Constraints, Put, Settle, Free, DecidePurchase, CollisionPlan, Committed, ProcessPurchase,
         SameTerms;
    OpenIsOk(init, m, tid);
    InvBasics(m.db);
    var x, p, db := m.txns[tid], m.txns[tid].request, m.db;
    if p.key in db.keyIndex {
      var winner := db.keyIndex[p.key];
      WritingBegins(db, x, CollisionPlan(p, winner), OrderReply(winner));
      PutKeeps(init, m, tid, x.(phase := Writing(CollisionPlan(p, winner), 0, OrderReply(winner))));
    } else {
      var row, t, paused := x.phase.row, x.phase.ticketType, x.phase.paused;
      var t' := db.types[row.ticketType];
      TermsShareEvent(t, t');
      DecisionReadsTerms(p, row, t, t', paused);
      var d := DecidePurchase(p, row, t, paused);
      if d.Refuse? {
        PurchaseSerial(db, p, row, t');
      }
      SettleKeeps(init, m, tid, d, x);
    }
  }

  lemma LookRefund(init: Db, m: State, tid: nat)
    requires MachineOk(init, m) && tid in m.txns && m.txns[tid].phase.FetchedOrder?
    ensures MachineOk(init, AfterLook(m, tid))
  {
    hide MachineOk, Inv, Constraints, Settle, Free, DecideRefund, Committed, RefundOrder, RefundTargets;
    OpenIsOk(init, m, tid);
    InvBasics(m.db);
    var x, f, o := m.txns[tid], m.txns[tid].request, m.txns[tid].phase.order;
    var d := DecideRefund(f, o, RefundTargets(m.db, f));
    if d.Refuse? {
      RefundSerial(m.db, f, o);
    }
    SettleKeeps(init, m, tid, d, x);
  }

  /** More locks never hurt a decision. */
  lemma DecidedGrows(db: Db, x: Txn, x': Txn, plan: seq<Stmt>, reply: Reply)
    requires Decided(db, x, plan, reply) && x'.request == x.request && x.locks <= x'.locks && x'.events == x.events
    ensures Decided(db, x', plan, reply)
  {
    hide DecideCreate, DecideCancel, DecidePurchase, DecideRefund, RefundTargets, CollisionPlan, SweepPlan;
  }

  lemma ExecuteOk(db: Db, x: Txn, x': Txn)
    requires TxnOk(db, x) && x.phase.Writing? && x.phase.pc < |x.phase.plan|
    requires var s := x.phase.plan[x.phase.pc];
             Vacant(db, s) && x' == x.(phase := x.phase.(pc := x.phase.pc + 1), writes := Exec(db, x.writes, s),
                                       locks := x.locks + Needs(s))
    ensures TxnOk(db, x')
  {
    hide Decided, Exec, Needs, Vacant;
    DecidedGrows(db, x, x', x.phase.plan, x.phase.reply);
  }

  lemma ExecuteKeeps(init: Db, m: State, tid: nat)
    requires MachineOk(init, m) && Enabled(m, Execute(tid)) && Constraints(m.db)
    ensures MachineOk(init, Do(m, Execute(tid)))
  {
    hide MachineOk, Inv, Constraints, TxnOk, Exec, Needs, Vacant, Passes, Free;
    OpenIsOk(init, m, tid);
    var x := m.txns[tid];
    var s := x.phase.plan[x.phase.pc];
    var x' := x.(phase := x.phase.(pc := x.phase.pc + 1), writes := Exec(m.db, x.writes, s),
                 locks := x.locks + Needs(s));
    ExecuteOk(m.db, x, x');
    assert Free(m, tid, x'.locks) by { FreeUnion(m, tid, x.locks, Needs(s)); }
    PutKeeps(init, m, tid, x');
  }

  lemma FreeUnion(m: State, tid: nat, a: set<Lock>, b: set<Lock>)
    requires Free(m, tid, a) && Free(m, tid, b)
    ensures Free(m, tid, a + b)
  {}

  /** The unique index turns the loser of a race into a duplicate of the winner. */
  lemma CollideOk(db: Db, x: Txn, x': Txn)
    requires TxnOk(db, x) && x.phase.Writing? && x.request.Purchase? && x.request.key in db.keyIndex
    requires var winner := db.keyIndex[x.request.key];
             x' == x.(phase := Writing(CollisionPlan(x.request, winner), 0, OrderReply(winner)), writes := NO_WRITES)
    ensures TxnOk(db, x')
  {
    hide DecidePurchase, CollisionPlan, PurchaseBase;
    assert PurchaseBase(db, x);
    BaseGrows(db, x, x');
  }

  lemma BaseGrows(db: Db, x: Txn, x': Txn)
    requires x.request.Purchase? && PurchaseBase(db, x)
    requires x'.request == x.request && x.locks <= x'.locks && x'.events == x.events
    ensures PurchaseBase(db, x')
  {}

  lemma CollideKeeps(init: Db, m: State, tid: nat)
    requires MachineOk(init, m) && Enabled(m, Collide(tid)) && Constraints(m.db)
    ensures MachineOk(init, Do(m, Collide(tid)))
  {
    hide MachineOk, Inv, Constraints, TxnOk, CollisionPlan, Free;
    OpenIsOk(init, m, tid);
    var x := m.txns[tid];
    var winner := m.db.keyIndex[x.request.key];
    var x' := x.(phase := Writing(CollisionPlan(x.request, winner), 0, OrderReply(winner)), writes := NO_WRITES);
    CollideOk(m.db, x, x');
    PutKeeps(init, m, tid, x');
  }

  // An INSERT that meets a taken primary key.

  lemma CreateClashes(db: Db, x: Txn, plan: seq<Stmt>, reply: Reply, pc: nat)
    requires Constraints(db) && x.request.Create? && CreateDecided(db, x, plan, reply)
    requires pc < |plan| && Clashes(db, plan[pc])
    ensures CreateReservation(db, x.request) == Outcome(db, Raised(ClashError(plan[pc])))
  {
    hide Constraints;
  }

  lemma PurchaseClashes(db: Db, x: Txn, plan: seq<Stmt>, reply: Reply, pc: nat)
    requires Inv(db) && Constraints(db) && x.request.Purchase? && PurchaseDecided(db, x, plan, reply)
    requires pc < |plan| && Claimed(db, plan, pc, x.locks) && Clashes(db, plan[pc])
    ensures Admissible(db, x.request)
    ensures ProcessPurchase(db, x.request) == Outcome(db, Raised(ClashError(plan[pc])))
  {
    hide Inv, Constraints, OrderFits, TypeFits, Mintable;
    MoveFits(db, x.request.reservation);
    if pc > 0 {
      assert Vacant(db, plan[0]);
    }
  }

  lemma RefundClashes(db: Db, x: Txn, plan: seq<Stmt>, reply: Reply, pc: nat)
    requires Constraints(db) && x.request.IssueRefund? && RefundDecided(db, x, plan, reply)
    requires pc < |plan| && Clashes(db, plan[pc])
    ensures RefundOrder(db, x.request) == Outcome(db, Raised(ClashError(plan[pc])))
  {
    hide Constraints, UnitCharge, OnlyMember, RefundTargets, PaymentId;
  }

  /** The statements of cancels and sweeps. */
  predicate ReleasesOnly(plan: seq<Stmt>) {
    forall i | 0 <= i < |plan| :: plan[i].AddCounters? || plan[i].SetReservation? || plan[i].WriteLog?
  }

  lemma {:induction false} SweepInsertsNothing(rs: map<Id, Reservation>, rows: seq<Id>)
    requires forall r | r in rows :: r in rs
    ensures ReleasesOnly(SweepPlan(rs, rows))
  {
    if rows != [] {
      SweepInsertsNothing(rs, rows[..|rows| - 1]);
    }
  }

  lemma OnlyInsertsClash(db: Db, s: Stmt)
    requires Clashes(db, s)
    ensures s.InsertReservation? || s.InsertOrder? || s.InsertTickets? || s.InsertRefund?
  {}

  /** The service gives the same error, and leaves the database alone. */
  lemma ClashIsAnswered(db: Db, x: Txn)
    requires Inv(db) && TxnOk(db, x) && x.phase.Writing? && x.phase.pc < |x.phase.plan|
    requires Clashes(db, x.phase.plan[x.phase.pc])
    ensures Constraints(db) && Admissible(db, x.request)
    ensures Apply(db, x.request) == Outcome(db, Raised(ClashError(x.phase.plan[x.phase.pc])))
  {
    hide Inv, Constraints, Clashes, ClashError, WritesAfter, Claimed, CreateDecided, PurchaseDecided, RefundDecided,
         DecideCancel, CreateReservation, CancelReservation, ProcessPurchase, RefundOrder, SweepPlan;
    InvBasics(db);
    var plan, pc, reply := x.phase.plan, x.phase.pc, x.phase.reply;
    OnlyInsertsClash(db, plan[pc]);
    match x.request
    case Create(_, _, _, _, _) =>
      CreateClashes(db, x, plan, reply, pc);
      CreateQuantity(db, x, plan, reply);
    case Cancel(_, _) => CancelInsertsNothing(db, x, plan, reply);
    case Purchase(_, _, _, _, _, _, _, _, _) =>
      if !Duplicate(db, x, plan, reply) {
        PurchaseClashes(db, x, plan, reply, pc);
      }
    case IssueRefund(_, _, _, _, _, _) => RefundClashes(db, x, plan, reply, pc);
    case Sweep(_, rows) => SweepInsertsNothing(db.reservations, rows);
    case SetPaused(_, _) =>
  }

  lemma CancelInsertsNothing(db: Db, x: Txn, plan: seq<Stmt>, reply: Reply)
    requires x.request.Cancel? && CancelDecided(db, x, plan, reply)
    ensures ReleasesOnly(plan)
  {}

  lemma ClashKeeps(init: Db, m: State, tid: nat)
    requires MachineOk(init, m) && Enabled(m, Clash(tid)) && Constraints(m.db)
    ensures MachineOk(init, Do(m, Clash(tid)))
  {
    hide MachineOk, Inv, Constraints, TxnOk, Clashes, ClashError, Apply, Admissible, Finish;
    OpenIsOk(init, m, tid);
    ClashIsAnswered(m.db, m.txns[tid]);
    FinishKeeps(init, m, tid, Raised(ClashError(m.txns[tid].phase.plan[m.txns[tid].phase.pc])));
  }

  lemma CommitConfined(db: Db, x: Txn)
    requires TxnOk(db, x) && x.phase.Writing? && x.phase.pc == |x.phase.plan|
    ensures Confined(db, Merge(db, x.writes), x.locks)
  {
    hide Decided, Claimed, Confined, Merge, Within;
    WritesWithin(db, x.phase.plan, x.phase.pc, x.locks);
    MergeConfined(db, x.writes, x.locks);
  }

  lemma CommitKeeps(init: Db, m: State, tid: nat)
    requires MachineOk(init, m) && Enabled(m, Commit(tid)) && Constraints(m.db)
    ensures MachineOk(init, Do(m, Commit(tid)))
  {
    hide Inv, Constraints, TxnOk, Confined, Apply, Admissible;
    var x := m.txns[tid];
    var d := Merge(m.db, x.writes);
    TxnCommits(m.db, x);
    CommitConfined(m.db, x);
    ReplayAppend(init, m.history, Entry(x.request, x.phase.reply));
    ApplyKeepsInv(m.db, x.request);
    ApplyEvolves(m.db, x.request);
    forall u | u in m.txns && u != tid ensures TxnOk(d, m.txns[u]) {
      KeysPersist(m.db, d);
      TxnStable(m.db, d, m.txns[u], x.locks);
    }
  }

  lemma SameConfined(db: Db)
    ensures Confined(db, db, {})
  {}

  lemma ToggleKeeps(init: Db, m: State, e: Id, paused: bool)
    requires MachineOk(init, m) && Enabled(m, Toggle(e, paused)) && Constraints(m.db)
    ensures MachineOk(init, Do(m, Toggle(e, paused)))
  {
    hide Inv, Constraints, TxnOk, CreateReservation, CancelReservation, ProcessPurchase, RefundOrder;
    var d := Do(m, Toggle(e, paused)).db;
    ReplayAppend(init, m.history, Entry(SetPaused(e, paused), Done));
    ApplyKeepsInv(m.db, SetPaused(e, paused));
    SameConfined(m.db);
    assert Confined(m.db, d, {});
    hide Confined;
    forall u | u in m.txns ensures TxnOk(d, m.txns[u]) {
      TxnStable(m.db, d, m.txns[u], {});
    }
  }

  /** Every step of every transaction, wherever it is interleaved. */
  lemma StepKeeps(init: Db, m: State, a: Action)
    requires MachineOk(init, m) && Constraints(m.db) && Enabled(m, a)
    ensures MachineOk(init, Do(m, a))
  {
    hide MachineOk, Constraints, TxnOk, CanStart, AfterStart, AfterLook, Free, Vacant, Passes, Clashes, Exec, Needs,
         Merge;
    match a
    case Begin(tid, q) =>
      NoLocksFree(m, tid);
      BeginOk(m.db, q);
      PutKeeps(init, m, tid, Txn(q, Waiting, NO_WRITES, {}, {}));
    case Start(tid, rows) =>
      OpenIsOk(init, m, tid);
      match m.txns[tid].request {
        case Create(_, _, _, _, _) => StartCreate(init, m, tid, rows);
        case Cancel(_, _) => StartCancel(init, m, tid, rows);
        case Purchase(_, _, _, _, _, _, _, _, _) => StartPurchase(init, m, tid, rows);
        case IssueRefund(_, _, _, _, _, _) => StartRefund(init, m, tid, rows);
        case Sweep(_, _) => StartSweep(init, m, tid, rows);
        case SetPaused(_, _) => CannotStart(m, tid, rows);
      }
    case Look(tid) =>
      if m.txns[tid].phase.FetchedReservation? {
        LookPurchase(init, m, tid);
      } else {
        LookRefund(init, m, tid);
      }
    case Execute(tid) => ExecuteKeeps(init, m, tid);
    case Collide(tid) => CollideKeeps(init, m, tid);
    case Clash(tid) => ClashKeeps(init, m, tid);
    case Commit(tid) => CommitKeeps(init, m, tid);
    case Crash(tid) => CrashKeeps(init, m, tid);
    case Toggle(e, paused) => ToggleKeeps(init, m, e, paused);
  }

  lemma BeginOk(db: Db, q: Request)
    requires Launchable(q)
    ensures TxnOk(db, Txn(q, Waiting, NO_WRITES, {}, {}))
  {}

  lemma CannotStart(m: State, tid: nat, rows: seq<Id>)
    requires tid in m.txns && CanStart(m, tid, rows)
    ensures !m.txns[tid].request.SetPaused?
  {}

  lemma CrashKeeps(init: Db, m: State, tid: nat)
    requires MachineOk(init, m) && tid in m.txns
    ensures MachineOk(init, m.(txns := m.txns - {tid}))
  {
    hide Inv, TxnOk;
  }
}

/** Transactions that are open together, have all looked and decided, and commit in either order. */
module EitherOrder {
  import opened Sums
  import opened Schema
  import opened Services
  import opened Invariants
  import opened Preservation
  import opened Runs
  import opened Purchases
  import opened RefundBatches
  import opened RoundTrips
  import opened Machine
  import opened Interleaving
  import opened Refinement
  import opened Serializability
  import opened Completeness
  import opened Answers

  // ---------- continuing a run ----------

  /** The steps taken from m on, or None when one of them was not enabled. */
  ghost function From(m: State, steps: seq<Action>): Option<State> {
    if steps == [] then Some(m)
    else
      var n := |steps| - 1;
      match From(m, steps[..n])
      case None => None
      case Some(x) => if Constraints(x.db) && Enabled(x, steps[n]) then Some(Do(x, steps[n])) else None
  }

  lemma {:induction false} FromContinues(init: Db, a: seq<Action>, b: seq<Action>)
    requires Interleave(init, a).Some?
    ensures Interleave(init, a + b) == From(Interleave(init, a).value, b)
  {
    hide Constraints, Enabled, Do;
    if b == [] {
      assert a + b == a;
    } else {
      var n := |b| - 1;
      assert (a + b)[..|a| + n] == a + b[..n];
      FromContinues(init, a, b[..n]);
    }
  }

  ghost predicate Leads(m: State, m': State) {
    exists steps :: From(m, steps) == Some(m')
  }

  lemma {:induction false} FromConcat(m: State, a: seq<Action>, b: seq<Action>)
    requires From(m, a).Some?
    ensures From(m, a + b) == From(From(m, a).value, b)
  {
    hide Constraints, Enabled, Do;
    if b == [] {
      assert a + b == a;
    } else {
      var n := |b| - 1;
      assert (a + b)[..|a| + n] == a + b[..n];
      FromConcat(m, a, b[..n]);
    }
  }

  lemma LeadsTransitive(a: State, b: State, c: State)
    requires Leads(a, b) && Leads(b, c)
    ensures Leads(a, c)
  {
    hide From;
    var x :| From(a, x) == Some(b);
    var y :| From(b, y) == Some(c);
    FromConcat(a, x, y);
    assert From(a, x + y) == Some(c);
  }

  lemma OneStep(m: State, a: Action)
    requires Constraints(m.db) && Enabled(m, a)
    ensures Leads(m, Do(m, a))
  {
    hide Constraints, Enabled, Do;
    assert From(m, []) == Some(m);
    assert [a][..0] == [];
    assert From(m, [a]) == Some(Do(m, a));
  }

  lemma {:induction false} FromKeeps(init: Db, m: State, steps: seq<Action>)
    requires MachineOk(init, m) && From(m, steps).Some?
    ensures MachineOk(init, From(m, steps).value)
  {
    hide MachineOk, Constraints, Enabled, Do;
    if steps != [] {
      var n := |steps| - 1;
      FromKeeps(init, m, steps[..n]);
      StepKeeps(init, From(m, steps[..n]).value, steps[n]);
    }
  }

  lemma LeadsKeeps(init: Db, m: State, m': State)
    requires MachineOk(init, m) && Leads(m, m')
    ensures MachineOk(init, m') && Inv(m'.db) && Constraints(m'.db)
  {
    hide Inv, TxnOk, Constraints, From;
    var steps :| From(m, steps) == Some(m');
    FromKeeps(init, m, steps);
    InvBasics(m'.db);
  }

  // ---------- finishing among others ----------

  /** Nobody else holds a lock that the rest of tid's statements need. */
  predicate PlanFree(m: State, tid: nat)
    requires tid in m.txns
  {
    m.txns[tid].phase.Writing? &&
    forall i | m.txns[tid].phase.pc <= i < |m.txns[tid].phase.plan| :: Free(m, tid, Needs(m.txns[tid].phase.plan[i]))
  }

  /** From m tid can be answered while everybody else stays as they are. */
  ghost predicate Ends(m: State, tid: nat)
    requires tid in m.txns
  {
    exists d, r :: Leads(m, State(d, m.txns - {tid}, m.history + [Entry(m.txns[tid].request, r)]))
  }

  lemma EndsBefore(m: State, m1: State, tid: nat)
    requires tid in m.txns && tid in m1.txns && Leads(m, m1) && Ends(m1, tid)
    requires m1.txns - {tid} == m.txns - {tid} && m1.history == m.history && m1.txns[tid].request == m.txns[tid].request
    ensures Ends(m, tid)
  {
    hide Leads;
    var d, r :| Leads(m1, State(d, m1.txns - {tid}, m1.history + [Entry(m1.txns[tid].request, r)]));
    LeadsTransitive(m, m1, State(d, m1.txns - {tid}, m1.history + [Entry(m1.txns[tid].request, r)]));
  }

  lemma PutAside(m: State, tid: nat, x: Txn)
    requires tid in m.txns
    ensures Put(m, tid, x).txns - {tid} == m.txns - {tid}
  {}

  lemma PutStaysFree(m: State, tid: nat, x: Txn)
    requires tid in m.txns && PlanFree(m, tid) && x.phase.Writing?
    requires x.phase == m.txns[tid].phase.(pc := x.phase.pc) && m.txns[tid].phase.pc <= x.phase.pc
    ensures PlanFree(Put(m, tid, x), tid)
  {
    hide Needs;
  }

  lemma {:induction false} FinishAmong(init: Db, m: State, tid: nat)
    requires MachineOk(init, m) && tid in m.txns && PlanFree(m, tid)
    requires m.txns[tid].phase.pc <= |m.txns[tid].phase.plan|
    ensures Ends(m, tid)
    decreases |m.txns[tid].phase.plan| - m.txns[tid].phase.pc
  {
    hide MachineOk, Inv, Constraints, TxnOk, Leads, Ends, Needs, Vacant, Clashes, Passes, Exec, Merge, Free, PlanFree;
    OpenIsOk(init, m, tid);
    var x := m.txns[tid];
    PlanFreeMeans(m, tid);
    var plan, pc := x.phase.plan, x.phase.pc;
    if pc == |plan| {
      OneStep(m, Commit(tid));
      AnsweredEnds(m, Merge(m.db, x.writes), tid, x.phase.reply);
    } else {
      var s := plan[pc];
      StatementPasses(init, m, tid);
      if Vacant(m.db, s) {
        var m1 := Do(m, Execute(tid));
        OneStep(m, Execute(tid));
        LeadsKeeps(init, m, m1);
        PutAside(m, tid, m1.txns[tid]);
        PutStaysFree(m, tid, m1.txns[tid]);
        FinishAmong(init, m1, tid);
        EndsBefore(m, m1, tid);
      } else if Clashes(m.db, s) {
        OneStep(m, Clash(tid));
        AnsweredEnds(m, m.db, tid, Raised(ClashError(s)));
      } else {
        InTheWay(m.db, s);
        OrderInsert(m.db, x);
        KeyFree(m, tid, s);
        var m1 := Do(m, Collide(tid));
        OneStep(m, Collide(tid));
        LeadsKeeps(init, m, m1);
        PutAside(m, tid, m1.txns[tid]);
        CollisionFree(m1, tid);
        FinishAmong(init, m1, tid);
        EndsBefore(m, m1, tid);
      }
    }
  }

  lemma PlanFreeMeans(m: State, tid: nat)
    requires tid in m.txns && PlanFree(m, tid)
    ensures m.txns[tid].phase.Writing?
    ensures m.txns[tid].phase.pc < |m.txns[tid].phase.plan| ==>
              Free(m, tid, Needs(m.txns[tid].phase.plan[m.txns[tid].phase.pc]))
  {}

  lemma AnsweredEnds(m: State, d: Db, tid: nat, r: Reply)
    requires tid in m.txns && Leads(m, State(d, m.txns - {tid}, m.history + [Entry(m.txns[tid].request, r)]))
    ensures Ends(m, tid)
  {
    hide Leads;
  }

  lemma KeyFree(m: State, tid: nat, s: Stmt)
    requires s.InsertOrder? && Free(m, tid, Needs(s))
    ensures Free(m, tid, {KeySlot(s.orderRow.key)})
  {}

  lemma CollisionFree(m: State, tid: nat)
    requires tid in m.txns && m.txns[tid].phase.Writing? && m.txns[tid].request.Purchase?
    requires exists winner :: m.txns[tid].phase.plan == CollisionPlan(m.txns[tid].request, winner)
    ensures PlanFree(m, tid)
  {}

  /** The state in which both are answered, a first. */
  ghost predicate EndsWith(m: State, a: nat, b: nat)
    requires a in m.txns && b in m.txns
  {
    exists d, ra, rb :: Leads(m, State(d, m.txns - {a} - {b},
                                       m.history + [Entry(m.txns[a].request, ra)] + [Entry(m.txns[b].request, rb)]))
  }

  /** Two transactions that have decided, and hold nothing the other one needs, can finish in
      either order; everybody else stays as they are. */
  lemma EitherFirst(init: Db, m: State, a: nat, b: nat)
    requires MachineOk(init, m) && a in m.txns && b in m.txns && a != b && PlanFree(m, a) && PlanFree(m, b)
    requires m.txns[a].phase.pc <= |m.txns[a].phase.plan| && m.txns[b].phase.pc <= |m.txns[b].phase.plan|
    ensures EndsWith(m, a, b) && EndsWith(m, b, a)
  {
    OneThenOther(init, m, a, b);
    OneThenOther(init, m, b, a);
  }

  lemma OneThenOther(init: Db, m: State, a: nat, b: nat)
    requires MachineOk(init, m) && a in m.txns && b in m.txns && a != b && PlanFree(m, a) && PlanFree(m, b)
    requires m.txns[a].phase.pc <= |m.txns[a].phase.plan| && m.txns[b].phase.pc <= |m.txns[b].phase.plan|
    ensures EndsWith(m, a, b)
  {
    hide MachineOk, Leads, Needs, Free, PlanFree;
    FinishAmong(init, m, a);
    var d, ra :| Leads(m, State(d, m.txns - {a}, m.history + [Entry(m.txns[a].request, ra)]));
    var m1 := State(d, m.txns - {a}, m.history + [Entry(m.txns[a].request, ra)]);
    LeadsKeeps(init, m, m1);
    FewerAreFree(m, m1, b);
    FinishAmong(init, m1, b);
    var e, rb :| Leads(m1, State(e, m1.txns - {b}, m1.history + [Entry(m1.txns[b].request, rb)]));
    LeadsTransitive(m, m1, State(e, m1.txns - {b}, m1.history + [Entry(m1.txns[b].request, rb)]));
  }

  lemma FewerAreFree(m: State, m1: State, b: nat)
    requires b in m.txns && PlanFree(m, b) && b in m1.txns && m1.txns[b] == m.txns[b]
    requires forall u | u in m1.txns :: u in m.txns && m1.txns[u] == m.txns[u]
    ensures PlanFree(m1, b)
  {
    hide Needs;
  }

  // ---------- two purchases, a purchase and a refund ----------

  /** A purchase that has locked its reservation, looked its key up and decided to sell. */
  function DecidedPurchase(db: Db, p: Request): Txn
    requires p.Purchase? && p.reservation in db.reservations
    requires db.reservations[p.reservation].ticketType in db.types
  {
    var row := db.reservations[p.reservation];
    Txn(p, Writing(PurchasePlan(p, row, OrderFor(db, p)), 0,
                   if p.capture.Declined? then Raised(PaymentFailed) else OrderReply(p.newOrder)),
        NO_WRITES, {ReservationRow(p.reservation)}, {db.types[row.ticketType].event})
  }

  /** A refund that has locked its order, counted its tickets and decided to pay. */
  function DecidedRefund(db: Db, f: Request): Txn
    requires f.IssueRefund? && f.gateway.Approved? && f.order in db.orders && db.orders[f.order].quantity >= 1
  {
    Txn(f, Writing(RefundPlan(f, db.orders[f.order], RefundTargets(db, f)), 0, RefundReply(f.newRefund)),
        NO_WRITES, {OrderRow(f.order)}, {})
  }

  lemma PurchaseDecides(m: State, tid: nat, p: Request)
    requires Constraints(m.db) && tid !in m.txns && p.Purchase? && !p.late && WillSell(m.db, p)
    requires Admissible(m.db, p) && Free(m, tid, {ReservationRow(p.reservation)})
    ensures m.db.reservations[p.reservation].ticketType in m.db.types
    ensures Leads(m, Put(m, tid, DecidedPurchase(m.db, p)))
  {
    hide Constraints, Leads, OrderFits, Mintable, PurchasePlan, Free;
    TypeKnown(m.db, p.reservation);
    var row := m.db.reservations[p.reservation];
    var t := m.db.types[row.ticketType];
    var x := Txn(p, Waiting, NO_WRITES, {}, {});
    var m1 := Put(m, tid, x);
    OneStep(m, Begin(tid, p));
    FreeAfterPut(m, tid, x, {ReservationRow(p.reservation)});
    var m2 := Put(m1, tid, x.(phase := FetchedReservation(row, t, m.db.events[t.event].salesPaused),
                              locks := {ReservationRow(p.reservation)}, events := {t.event}));
    OneStep(m1, Start(tid, []));
    OneStep(m2, Look(tid));
    LeadsTransitive(m, m1, m2);
    LeadsTransitive(m, m2, AfterLook(m2, tid));
    assert AfterLook(m2, tid) == Put(m, tid, DecidedPurchase(m.db, p));
  }

  lemma FreeAfterPut(m: State, tid: nat, x: Txn, locks: set<Lock>)
    requires Free(m, tid, locks)
    ensures Free(Put(m, tid, x), tid, locks)
  {}

  lemma RefundDecides(m: State, tid: nat, f: Request)
    requires Constraints(m.db) && Inv(m.db) && tid !in m.txns && f.IssueRefund? && WillRefund(m.db, f)
    requires Free(m, tid, {OrderRow(f.order)})
    ensures m.db.orders[f.order].quantity >= 1
    ensures Leads(m, Put(m, tid, DecidedRefund(m.db, f)))
  {
    hide Inv, Constraints, Leads, RefundPlan, Free, RefundTargets, UnitCharge, ActiveTickets;
    OrderKnown(m.db, f.order);
    TargetsActive(m.db, f);
    ActiveMeansRefundable(m.db, f.order);
    var x := Txn(f, Waiting, NO_WRITES, {}, {});
    var m1 := Put(m, tid, x);
    OneStep(m, Begin(tid, f));
    FreeAfterPut(m, tid, x, {OrderRow(f.order)});
    var m2 := Put(m1, tid, x.(phase := FetchedOrder(m.db.orders[f.order]), locks := {OrderRow(f.order)}));
    OneStep(m1, Start(tid, []));
    OneStep(m2, Look(tid));
    LeadsTransitive(m, m1, m2);
    LeadsTransitive(m, m2, AfterLook(m2, tid));
    assert AfterLook(m2, tid) == Put(m, tid, DecidedRefund(m.db, f));
  }

  /** Sales of different reservations, keys and row ids do not stand in each other's way. */
  predicate Apart(p: Request, q: Request) {
    && p.Purchase? && q.Purchase? && p.reservation != q.reservation && p.key != q.key && p.newOrder != q.newOrder
    && Members(p.newTickets) !! Members(q.newTickets)
  }

  lemma SaleLeavesSale(db: Db, p: Request, q: Request)
    requires Inv(db) && Constraints(db) && Apart(p, q) && Admissible(db, p) && Admissible(db, q)
    requires WillSell(db, p) && WillSell(db, q)
    ensures var d := ProcessPurchase(db, p).db; Constraints(d) && Admissible(d, q) && WillSell(d, q)
  {
    hide Inv, Constraints, ProcessPurchase, OrderFits, Distinct, Members;
    PurchaseKeepsInv(db, p);
    var d := ProcessPurchase(db, p).db;
    InvBasics(d);
    SaleInFull(db, p);
    TypeKnown(db, p.reservation);
    TypeKnown(db, q.reservation);
    SaleGuards(db, q);
    SaleGuards(d, q);
    IdsMean(db, q.newTickets);
    IdsMean(d, q.newTickets);
    hide WillSell, IdsFree;
    assert ColumnsFit(q.key, d.reservations[q.reservation].quantity, d.types[d.reservations[q.reservation].ticketType]);
  }

  lemma SaleLeavesRefund(db: Db, p: Request, f: Request)
    requires Inv(db) && Constraints(db) && p.Purchase? && Admissible(db, p) && WillSell(db, p)
    requires f.IssueRefund? && WillRefund(db, f)
    ensures var d := ProcessPurchase(db, p).db; Constraints(d) && WillRefund(d, f)
  {
    hide Inv, Constraints, ProcessPurchase, UnitCharge, Members, WillSell;
    PurchaseKeepsInv(db, p);
    InvBasics(ProcessPurchase(db, p).db);
    SaleInFull(db, p);
    TicketsKnown(db);
    hide TicketsLinked;
    MintSets(db.tickets, ProcessPurchase(db, p).db.tickets, db.orders.Keys, p.newOrder, Members(p.newTickets), f.order);
  }

  lemma RefundLeavesSale(db: Db, p: Request, f: Request)
    requires Inv(db) && Constraints(db) && p.Purchase? && Admissible(db, p) && WillSell(db, p)
    requires f.IssueRefund? && WillRefund(db, f)
    ensures var d := RefundOrder(db, f).db; Constraints(d) && Admissible(d, p) && WillSell(d, p)
  {
    hide Inv, Constraints, RefundOrder, UnitCharge, WillRefund, OrderFits, Named;
    RefundOrderKeepsInv(db, f);
    var d := RefundOrder(db, f).db;
    InvBasics(d);
    RefundSucceedsIff(db, f);
    RefundAnswers(db, f);
    RefundDoes(db, f);
    TypeKnown(db, p.reservation);
    SaleGuards(db, p);
    SaleGuards(d, p);
    IdsMean(db, p.newTickets);
    IdsMean(d, p.newTickets);
  }

  /** Both are open, both have looked and decided, and nothing is committed yet. */
  predicate BothDecided(s: State, m: State, p: Request, q: Request) {
    && s.db == m.db && s.history == m.history && s.txns.Keys == {0, 1}
    && s.txns[0].request == p && s.txns[1].request == q
    && s.txns[0].phase.Writing? && s.txns[0].phase.pc == 0 && s.txns[1].phase.Writing? && s.txns[1].phase.pc == 0
  }

  predicate EndedWith(o: Option<State>, history: seq<Entry>) {
    o.Some? && o.value.txns == map[] && o.value.history == history
  }

  /** The run can be continued until both have decided, and from there so that p takes effect
      first or so that q does, with these answers. */
  ghost predicate Overlapping(init: Db, steps: seq<Action>, p: Request, rp: Reply, q: Request, rq: Reply)
    requires Interleave(init, steps).Some?
  {
    var m := Interleave(init, steps).value;
    exists more, left, right ::
      && Interleave(init, steps + more).Some? && BothDecided(Interleave(init, steps + more).value, m, p, q)
      && EndedWith(Interleave(init, steps + more + left), m.history + [Entry(p, rp)] + [Entry(q, rq)])
      && EndedWith(Interleave(init, steps + more + right), m.history + [Entry(q, rq)] + [Entry(p, rp)])
  }

  /** What two requests answer one after the other. */
  ghost predicate AnswersInTurn(db: Db, p: Request, rp: Reply, q: Request, rq: Reply) {
    && Constraints(db) && Admissible(db, p) && Apply(db, p).reply == rp
    && Constraints(Apply(db, p).db) && Admissible(Apply(db, p).db, q) && Apply(Apply(db, p).db, q).reply == rq
  }

  lemma InTurn(init: Db, m: State, end: State, p: Request, ra: Reply, rp: Reply, q: Request, rb: Reply, rq: Reply)
    requires MachineOk(init, m) && MachineOk(init, end)
    requires end.history == m.history + [Entry(p, ra)] + [Entry(q, rb)]
    requires AnswersInTurn(m.db, p, rp, q, rq)
    ensures ra == rp && rb == rq
  {
    hide Inv, TxnOk, Constraints, Apply, Admissible;
    var h1 := m.history + [Entry(p, ra)];
    ReplaySplit(init, end.history, |h1|);
    assert end.history[..|h1|] == h1;
    ReplayAppend(init, m.history, Entry(p, ra));
    ReplayAppend(init, h1, Entry(q, rb));
  }

  lemma DecidedOverlap(init: Db, steps: seq<Action>, s: State, p: Request, rp: Reply, q: Request, rq: Reply)
    requires Inv(init) && Interleave(init, steps).Some? && Leads(Interleave(init, steps).value, s)
    requires BothDecided(s, Interleave(init, steps).value, p, q) && PlanFree(s, 0) && PlanFree(s, 1)
    requires AnswersInTurn(s.db, p, rp, q, rq) && AnswersInTurn(s.db, q, rq, p, rp)
    ensures Overlapping(init, steps, p, rp, q, rq)
  {
    hide Inv, MachineOk, PlanFree, AnswersInTurn, From, Interleave;
    var m := Interleave(init, steps).value;
    InterleavingKeeps(init, steps);
    LeadsKeeps(init, m, s);
    EitherFirst(init, s, 0, 1);
    var more :| From(m, more) == Some(s);
    FromContinues(init, steps, more);
    ContinueInTurn(init, s, 0, 1, p, rp, q, rq);
    var left :| EndedWith(From(s, left), s.history + [Entry(p, rp)] + [Entry(q, rq)]);
    FromContinues(init, steps + more, left);
    ContinueInTurn(init, s, 1, 0, q, rq, p, rp);
    var right :| EndedWith(From(s, right), s.history + [Entry(q, rq)] + [Entry(p, rp)]);
    FromContinues(init, steps + more, right);
  }

  lemma ContinueInTurn(init: Db, s: State, a: nat, b: nat, p: Request, rp: Reply, q: Request, rq: Reply)
    requires MachineOk(init, s) && s.txns.Keys == {a, b} && a != b && EndsWith(s, a, b)
    requires s.txns[a].request == p && s.txns[b].request == q && AnswersInTurn(s.db, p, rp, q, rq)
    ensures exists steps :: EndedWith(From(s, steps), s.history + [Entry(p, rp)] + [Entry(q, rq)])
  {
    hide Inv, MachineOk, AnswersInTurn, From;
    var d, ra, rb :| Leads(s, State(d, s.txns - {a} - {b},
                                    s.history + [Entry(s.txns[a].request, ra)] + [Entry(s.txns[b].request, rb)]));
    var end := State(d, s.txns - {a} - {b}, s.history + [Entry(p, ra)] + [Entry(q, rb)]);
    var steps :| From(s, steps) == Some(end);
    LeadsKeeps(init, s, end);
    InTurn(init, s, end, p, ra, rp, q, rb, rq);
    assert s.txns - {a} - {b} == map[];
  }

  /** No statement of a purchase needs another reservation or an existing order. */
  lemma PurchasePlanNeeds(db: Db, p: Request, l: Lock)
    requires p.Purchase? && p.reservation in db.reservations && db.reservations[p.reservation].ticketType in db.types
    requires (l.ReservationRow? && l.reservation != p.reservation) || (l.OrderRow? && l.order != p.newOrder)
    ensures forall i | 0 <= i < |DecidedPurchase(db, p).phase.plan| :: l !in Needs(DecidedPurchase(db, p).phase.plan[i])
  {
    hide PaymentId, AmountDue, NewOrder;
    var row := db.reservations[p.reservation];
    assert OrderFor(db, p) == NewOrder(p, row, db.types[row.ticketType]);
  }

  lemma RefundPlanNeeds(db: Db, f: Request, l: Lock)
    requires f.IssueRefund? && f.gateway.Approved? && f.order in db.orders && db.orders[f.order].quantity >= 1
    requires l.ReservationRow?
    ensures forall i | 0 <= i < |DecidedRefund(db, f).phase.plan| :: l !in Needs(DecidedRefund(db, f).phase.plan[i])
  {
    hide PaymentId, UnitCharge, OnlyMember, RefundTargets;
  }

  lemma TwoPlansFree(m: State, a: nat, b: nat, l: Lock)
    requires m.txns.Keys == {a, b} && a != b && m.txns[a].phase.Writing? && m.txns[b].locks == {l}
    requires forall i | 0 <= i < |m.txns[a].phase.plan| :: l !in Needs(m.txns[a].phase.plan[i])
    ensures PlanFree(m, a)
  {
    hide Needs;
  }

  /** Two purchases of different reservations, of one ticket type or of several: both look and
      decide before either commits, then either commits first, and both sell. */
  lemma TwoSalesOverlap(init: Db, steps: seq<Action>, p: Request, q: Request)
    requires Inv(init) && Interleave(init, steps).Some? && Interleave(init, steps).value.txns == map[]
    requires var db := Interleave(init, steps).value.db;
             && Constraints(db) && Apart(p, q) && !p.late && !q.late
             && Admissible(db, p) && Admissible(db, q) && WillSell(db, p) && WillSell(db, q)
    ensures Overlapping(init, steps, p, OrderReply(p.newOrder), q, OrderReply(q.newOrder))
  {
    hide Inv, MachineOk, Constraints, Leads, Interleave, WillSell, Admissible, ProcessPurchase, DecidedPurchase,
         PlanFree;
    var m := Interleave(init, steps).value;
    var db := m.db;
    InterleavingKeeps(init, steps);
    LeadsItself(m);
    LeadsKeeps(init, m, m);
    SellGuards(db, p);
    SellGuards(db, q);
    var xp, xq := DecidedPurchase(db, p), DecidedPurchase(db, q);
    DecidedShape(db, p);
    DecidedShape(db, q);
    PurchaseDecides(m, 0, p);
    var m1 := Put(m, 0, xp);
    PurchaseDecides(m1, 1, q);
    var s := Put(m1, 1, xq);
    LeadsTransitive(m, m1, s);
    PurchasePlanNeeds(db, p, ReservationRow(q.reservation));
    PurchasePlanNeeds(db, q, ReservationRow(p.reservation));
    TwoPlansFree(s, 0, 1, ReservationRow(q.reservation));
    TwoPlansFree(s, 1, 0, ReservationRow(p.reservation));
    SalesInTurn(db, p, q);
    SalesInTurn(db, q, p);
    DecidedOverlap(init, steps, s, p, OrderReply(p.newOrder), q, OrderReply(q.newOrder));
  }

  lemma LeadsItself(m: State)
    ensures Leads(m, m)
  {
    assert From(m, []) == Some(m);
  }

  lemma SellGuards(db: Db, p: Request)
    requires p.Purchase? && Constraints(db) && WillSell(db, p)
    ensures p.reservation in db.reservations && db.reservations[p.reservation].ticketType in db.types
    ensures p.capture.Approved? && p.newOrder !in db.orders
  {
    TypeKnown(db, p.reservation);
  }

  lemma DecidedShape(db: Db, p: Request)
    requires p.Purchase? && p.reservation in db.reservations
    requires db.reservations[p.reservation].ticketType in db.types
    ensures var x := DecidedPurchase(db, p);
            x.request == p && x.phase.Writing? && x.phase.pc == 0 && x.locks == {ReservationRow(p.reservation)}
  {}

  lemma SalesInTurn(db: Db, p: Request, q: Request)
    requires Inv(db) && Constraints(db) && Apart(p, q) && Admissible(db, p) && Admissible(db, q)
    requires WillSell(db, p) && WillSell(db, q)
    ensures AnswersInTurn(db, p, OrderReply(p.newOrder), q, OrderReply(q.newOrder))
  {
    hide Inv, Constraints, ProcessPurchase, WillSell, Admissible, Fulfil;
    SaleLeavesSale(db, p, q);
    SellsExactlyWhen(db, p);
    PurchaseKeepsInv(db, p);
    SellsExactlyWhen(ProcessPurchase(db, p).db, q);
  }

  /** A purchase and a refund, of one ticket type or of two: both decide before either commits,
      then either commits first, and both succeed. */
  lemma SaleAndRefundOverlap(init: Db, steps: seq<Action>, p: Request, f: Request)
    requires Inv(init) && Interleave(init, steps).Some? && Interleave(init, steps).value.txns == map[]
    requires var db := Interleave(init, steps).value.db;
             && Constraints(db) && p.Purchase? && !p.late && Admissible(db, p) && WillSell(db, p)
             && f.IssueRefund? && WillRefund(db, f)
    ensures Overlapping(init, steps, p, OrderReply(p.newOrder), f, RefundReply(f.newRefund))
  {
    hide Inv, MachineOk, Constraints, Leads, Interleave, WillSell, WillRefund, Admissible, ProcessPurchase, RefundOrder,
         DecidedPurchase, DecidedRefund, PlanFree;
    var m := Interleave(init, steps).value;
    var db := m.db;
    InterleavingKeeps(init, steps);
    LeadsItself(m);
    LeadsKeeps(init, m, m);
    SellGuards(db, p);
    RefundGuards(db, f);
    DecidedShape(db, p);
    RefundShape(db, f);
    PurchaseDecides(m, 0, p);
    var m1 := Put(m, 0, DecidedPurchase(db, p));
    RefundDecides(m1, 1, f);
    var s := Put(m1, 1, DecidedRefund(db, f));
    LeadsTransitive(m, m1, s);
    PurchasePlanNeeds(db, p, OrderRow(f.order));
    RefundPlanNeeds(db, f, ReservationRow(p.reservation));
    TwoPlansFree(s, 0, 1, OrderRow(f.order));
    TwoPlansFree(s, 1, 0, ReservationRow(p.reservation));
    SaleThenRefund(db, p, f);
    RefundThenSale(db, p, f);
    DecidedOverlap(init, steps, s, p, OrderReply(p.newOrder), f, RefundReply(f.newRefund));
  }

  lemma RefundGuards(db: Db, f: Request)
    requires f.IssueRefund? && Constraints(db) && WillRefund(db, f)
    ensures f.gateway.Approved? && f.order in db.orders && db.orders[f.order].quantity >= 1
  {
    OrderKnown(db, f.order);
  }

  lemma RefundShape(db: Db, f: Request)
    requires f.IssueRefund? && f.gateway.Approved? && f.order in db.orders && db.orders[f.order].quantity >= 1
    ensures var x := DecidedRefund(db, f);
            x.request == f && x.phase.Writing? && x.phase.pc == 0 && x.locks == {OrderRow(f.order)}
  {}

  lemma SaleThenRefund(db: Db, p: Request, f: Request)
    requires Inv(db) && Constraints(db) && p.Purchase? && Admissible(db, p) && WillSell(db, p)
    requires f.IssueRefund? && WillRefund(db, f)
    ensures AnswersInTurn(db, p, OrderReply(p.newOrder), f, RefundReply(f.newRefund))
  {
    hide Inv, Constraints, ProcessPurchase, RefundOrder, WillSell, WillRefund, Fulfil, Refunding;
    SaleLeavesRefund(db, p, f);
    SellsExactlyWhen(db, p);
    PurchaseKeepsInv(db, p);
    RefundReplies(ProcessPurchase(db, p).db, f);
  }

  lemma RefundThenSale(db: Db, p: Request, f: Request)
    requires Inv(db) && Constraints(db) && p.Purchase? && Admissible(db, p) && WillSell(db, p)
    requires f.IssueRefund? && WillRefund(db, f)
    ensures AnswersInTurn(db, f, RefundReply(f.newRefund), p, OrderReply(p.newOrder))
  {
    hide Inv, Constraints, ProcessPurchase, RefundOrder, WillSell, WillRefund, Fulfil, Refunding;
    RefundLeavesSale(db, p, f);
    RefundReplies(db, f);
    RefundOrderKeepsInv(db, f);
    SellsExactlyWhen(RefundOrder(db, f).db, p);
  }

  lemma RefundReplies(db: Db, f: Request)
    requires Inv(db) && Constraints(db) && f.IssueRefund? && WillRefund(db, f)
    ensures RefundOrder(db, f).reply == RefundReply(f.newRefund)
  {
    hide Inv, Constraints, TypeFits, UnitCharge, RefundTargets, WillRefund, Refunding;
    RefundSucceedsIff(db, f);
  }
}

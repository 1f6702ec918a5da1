/** The machine interleaves: transactions begin whatever else is open, take every step whose
    locks nobody else holds, and finish in either order after they have all decided. */
module Overlap {
  import opened Schema
  import opened Services
  import opened Invariants
  import opened Runs
  import opened Machine
  import opened Interleaving
  import opened Refinement
  import opened Serializability
  import opened Completeness
  import opened Answers

  predicate NobodyElseHolds(m: State, tid: nat, l: Lock) {
    forall u | u in m.txns && u != tid :: l !in m.txns[u].locks
  }

  /** The step is tid's own: the committed database and the other transactions stay as they are. */
  predicate OthersStay(m: State, m': State, tid: nat) {
    && m'.db == m.db && m'.txns.Keys <= m.txns.Keys && m.txns.Keys <= m'.txns.Keys + {tid}
    && forall u | u in m.txns && u != tid :: m'.txns[u] == m.txns[u]
  }

  /** Either tid was answered, or it is open, past its first query, and holds these locks. */
  predicate Moved(m: State, m': State, tid: nat, locks: set<Lock>) {
    && OthersStay(m, m', tid)
    && if tid in m'.txns then !m'.txns[tid].phase.Waiting? && m'.txns[tid].locks == locks && m'.history == m.history
       else |m'.history| == |m.history| + 1 && m'.history[..|m.history|] == m.history
  }

  lemma Extends(init: Db, steps: seq<Action>, a: Action)
    requires Inv(init) && Interleave(init, steps).Some? && Enabled(Interleave(init, steps).value, a)
    ensures Constraints(Interleave(init, steps).value.db)
    ensures Interleave(init, steps + [a]) == Some(Do(Interleave(init, steps).value, a))
  {
    hide Inv, MachineOk, Constraints, Enabled, Do;
    InterleavingKeeps(init, steps);
    OkGivesConstraints(init, Interleave(init, steps).value);
    assert (steps + [a])[..|steps|] == steps;
  }

  lemma OkGivesConstraints(init: Db, m: State)
    requires MachineOk(init, m)
    ensures Constraints(m.db) && Inv(m.db)
  {
    hide Inv, TxnOk;
    InvBasics(m.db);
  }

  lemma FreeMeans(m: State, tid: nat, locks: set<Lock>)
    requires forall l | l in locks :: NobodyElseHolds(m, tid, l)
    ensures Free(m, tid, locks)
  {
    forall u | u in m.txns && u != tid ensures m.txns[u].locks !! locks {
      forall l | l in locks ensures l !in m.txns[u].locks {
        assert NobodyElseHolds(m, tid, l);
      }
    }
  }

  // ---------- every step ----------

  /** What a client may ask for: at least one ticket, a purchase that has yet to look its key up,
      a sweep that has yet to select. */
  predicate Askable(q: Request) {
    || (q.Create? && q.quantity >= 1) || q.Cancel? || (q.Purchase? && !q.late) || q.IssueRefund?
    || (q.Sweep? && q.rows == [])
  }

  /** Whatever is open, one more transaction can begin. */
  lemma BeginsWhenever(init: Db, steps: seq<Action>, tid: nat, q: Request)
    requires Inv(init) && Interleave(init, steps).Some? && tid !in Interleave(init, steps).value.txns && Askable(q)
    ensures var m := Interleave(init, steps).value;
            Interleave(init, steps + [Begin(tid, q)])
            == Some(State(m.db, m.txns[tid := Txn(q, Waiting, NO_WRITES, {}, {})], m.history))
  {
    hide Inv, Constraints;
    Extends(init, steps, Begin(tid, q));
  }

  function Begins(qs: seq<Request>, first: nat): seq<Action> {
    seq(|qs|, i requires 0 <= i < |qs| => Begin(first + i, qs[i]))
  }

  predicate AllWaiting(m: State, qs: seq<Request>, first: nat) {
    forall i | 0 <= i < |qs| :: WaitsAt(m, first + i, qs[i])
  }

  predicate WaitsAt(m: State, tid: nat, q: Request) {
    tid in m.txns && m.txns[tid] == Txn(q, Waiting, NO_WRITES, {}, {})
  }

  lemma OneMoreWaits(m: State, m': State, qs: seq<Request>, first: nat)
    requires qs != [] && AllWaiting(m, qs[..|qs| - 1], first)
    requires m'.txns == m.txns[first + |qs| - 1 := Txn(qs[|qs| - 1], Waiting, NO_WRITES, {}, {})]
    ensures AllWaiting(m', qs, first)
  {
    var n := |qs| - 1;
    forall i | 0 <= i < |qs| ensures WaitsAt(m', first + i, qs[i]) {
      if i < n {
        assert qs[..n][i] == qs[i] && WaitsAt(m, first + i, qs[..n][i]);
      }
    }
  }

  /** Any number of requests can be open at once. */
  lemma {:induction false} AllAtOnce(init: Db, steps: seq<Action>, qs: seq<Request>, first: nat)
    requires Inv(init) && Interleave(init, steps).Some?
    requires forall u | u in Interleave(init, steps).value.txns :: u < first
    requires forall i | 0 <= i < |qs| :: Askable(qs[i])
    ensures Interleave(init, steps + Begins(qs, first)).Some?
    ensures var m, m' := Interleave(init, steps).value, Interleave(init, steps + Begins(qs, first)).value;
            && m'.db == m.db && m'.history == m.history
            && (forall u | u in m.txns :: u in m'.txns && m'.txns[u] == m.txns[u])
            && (forall u | u in m'.txns :: u < first + |qs|)
            && AllWaiting(m', qs, first)
  {
    hide Inv, Interleave, Askable;
    if qs == [] {
      assert steps + Begins(qs, first) == steps;
    } else {
      var n := |qs| - 1;
      AllAtOnce(init, steps, qs[..n], first);
      BeginsWhenever(init, steps + Begins(qs[..n], first), first + n, qs[n]);
      assert steps + Begins(qs, first) == steps + Begins(qs[..n], first) + [Begin(first + n, qs[n])];
      OneMoreWaits(Interleave(init, steps + Begins(qs[..n], first)).value,
                   Interleave(init, steps + Begins(qs, first)).value, qs, first);
    }
  }

  ghost predicate OpenIn(init: Db, steps: seq<Action>, tid: nat)
    requires Inv(init)
  {
    Interleave(init, steps).Some? && tid in Interleave(init, steps).value.txns
  }

  /** create_reservation selects as soon as nobody else holds the ticket type. */
  lemma HoldStarts(init: Db, steps: seq<Action>, tid: nat)
    requires Inv(init) && OpenIn(init, steps, tid)
    requires var m := Interleave(init, steps).value;
             && m.txns[tid].phase.Waiting? && m.txns[tid].request.Create?
             && NobodyElseHolds(m, tid, TypeRow(m.txns[tid].request.ticketType))
    ensures Interleave(init, steps + [Start(tid, [])]).Some?
    ensures var m := Interleave(init, steps).value;
            Moved(m, Interleave(init, steps + [Start(tid, [])]).value, tid, {TypeRow(m.txns[tid].request.ticketType)})
  {
    hide Inv, Constraints, DecideCreate;
    var m := Interleave(init, steps).value;
    FreeMeans(m, tid, {TypeRow(m.txns[tid].request.ticketType)});
    Extends(init, steps, Start(tid, []));
    if m.txns[tid].request.ticketType in m.db.types {
      EventKnown(m.db, m.txns[tid].request.ticketType);
    }
  }

  /** cancel_reservation waits for its reservation only. */
  lemma CancelStarts(init: Db, steps: seq<Action>, tid: nat)
    requires Inv(init) && OpenIn(init, steps, tid)
    requires var m := Interleave(init, steps).value;
             && m.txns[tid].phase.Waiting? && m.txns[tid].request.Cancel?
             && NobodyElseHolds(m, tid, ReservationRow(m.txns[tid].request.reservation))
    ensures Interleave(init, steps + [Start(tid, [])]).Some?
    ensures var m := Interleave(init, steps).value;
            Moved(m, Interleave(init, steps + [Start(tid, [])]).value, tid,
                  {ReservationRow(m.txns[tid].request.reservation)})
  {
    hide Inv, Constraints, DecideCancel;
    var m := Interleave(init, steps).value;
    FreeMeans(m, tid, {ReservationRow(m.txns[tid].request.reservation)});
    Extends(init, steps, Start(tid, []));
  }

  /** process_purchase waits for its reservation only. */
  lemma PurchaseStarts(init: Db, steps: seq<Action>, tid: nat)
    requires Inv(init) && OpenIn(init, steps, tid)
    requires var m := Interleave(init, steps).value;
             && m.txns[tid].phase.Waiting? && m.txns[tid].request.Purchase?
             && NobodyElseHolds(m, tid, ReservationRow(m.txns[tid].request.reservation))
             && (m.txns[tid].request.reservation in m.db.reservations ==>
                   |m.txns[tid].request.newTickets| == m.db.reservations[m.txns[tid].request.reservation].quantity)
    ensures Interleave(init, steps + [Start(tid, [])]).Some?
    ensures var m := Interleave(init, steps).value;
            Moved(m, Interleave(init, steps + [Start(tid, [])]).value, tid,
                  {ReservationRow(m.txns[tid].request.reservation)})
  {
    hide Inv, Constraints;
    var m := Interleave(init, steps).value;
    FreeMeans(m, tid, {ReservationRow(m.txns[tid].request.reservation)});
    Extends(init, steps, Start(tid, []));
    if m.txns[tid].request.reservation in m.db.reservations {
      TypeKnown(m.db, m.txns[tid].request.reservation);
    }
  }

  /** issue_refund waits for its order only. */
  lemma RefundStarts(init: Db, steps: seq<Action>, tid: nat)
    requires Inv(init) && OpenIn(init, steps, tid)
    requires var m := Interleave(init, steps).value;
             && m.txns[tid].phase.Waiting? && m.txns[tid].request.IssueRefund?
             && NobodyElseHolds(m, tid, OrderRow(m.txns[tid].request.order))
    ensures Interleave(init, steps + [Start(tid, [])]).Some?
    ensures var m := Interleave(init, steps).value;
            Moved(m, Interleave(init, steps + [Start(tid, [])]).value, tid, {OrderRow(m.txns[tid].request.order)})
  {
    hide Inv, Constraints;
    var m := Interleave(init, steps).value;
    FreeMeans(m, tid, {OrderRow(m.txns[tid].request.order)});
    Extends(init, steps, Start(tid, []));
  }

  /** The sweep takes any ACTIVE reservations past their deadline that nobody else holds. */
  lemma SweepStarts(init: Db, steps: seq<Action>, tid: nat, rows: seq<Id>)
    requires Inv(init) && OpenIn(init, steps, tid)
    requires var m := Interleave(init, steps).value;
             && m.txns[tid].phase.Waiting? && m.txns[tid].request.Sweep?
             && (forall i, j | 0 <= i < |rows| && 0 <= j < |rows| && i != j :: rows[i] != rows[j])
             && (forall r | r in rows :: r in m.db.reservations && m.db.reservations[r].status.Active?
                   && m.db.reservations[r].expiresAt < m.txns[tid].request.now
                   && NobodyElseHolds(m, tid, ReservationRow(r)))
    ensures Interleave(init, steps + [Start(tid, rows)]).Some?
    ensures var m, m' := Interleave(init, steps).value, Interleave(init, steps + [Start(tid, rows)]).value;
            && Moved(m, m', tid, set r | r in rows :: ReservationRow(r))
            && tid in m'.txns && m'.txns[tid].request == Sweep(m.txns[tid].request.now, rows)
  {
    hide Inv, Constraints, SweepPlan;
    var m := Interleave(init, steps).value;
    forall r | r in rows ensures Stale(m.db, m.txns[tid].request.now, r) && Free(m, tid, {ReservationRow(r)}) {
      FreeMeans(m, tid, {ReservationRow(r)});
    }
    assert CanStart(m, tid, rows);
    Extends(init, steps, Start(tid, rows));
  }

  /** The second query of a purchase or a refund waits for nobody. */
  lemma Looks(init: Db, steps: seq<Action>, tid: nat)
    requires Inv(init) && OpenIn(init, steps, tid)
    requires var x := Interleave(init, steps).value.txns[tid]; !x.phase.Waiting? && !x.phase.Writing?
    ensures Interleave(init, steps + [Look(tid)]).Some?
    ensures var m, m' := Interleave(init, steps).value, Interleave(init, steps + [Look(tid)]).value;
            && Moved(m, m', tid, m.txns[tid].locks)
            && (tid in m'.txns ==> m'.txns[tid].phase.Writing?)
  {
    hide Inv, Constraints, MachineOk, DecidePurchase, DecideRefund, RefundTargets, CollisionPlan;
    var m := Interleave(init, steps).value;
    InterleavingKeeps(init, steps);
    OpenIsOk(init, m, tid);
    Extends(init, steps, Look(tid));
    LookMoves(m, tid);
  }

  lemma LookMoves(m: State, tid: nat)
    requires tid in m.txns && TxnOk(m.db, m.txns[tid])
    requires m.txns[tid].phase.FetchedReservation? || m.txns[tid].phase.FetchedOrder?
    ensures Moved(m, AfterLook(m, tid), tid, m.txns[tid].locks)
    ensures tid in AfterLook(m, tid).txns ==> AfterLook(m, tid).txns[tid].phase.Writing?
  {
    hide DecidePurchase, DecideRefund, RefundTargets, CollisionPlan, PurchaseBase, SameTerms;
  }

  /** The rows and index entries a writing statement locks. */
  function Locks(s: Stmt): set<Lock> {
    match s
    case AddCounters(t, _, _) => {TypeRow(t)}
    case WriteHeld(t, _) => {TypeRow(t)}
    case InsertReservation(r, _) => {ReservationRow(r)}
    case SetReservation(r, _) => {ReservationRow(r)}
    case InsertOrder(o, row) => {OrderRow(o), KeySlot(row.key)}
    case SetOrder(o, _, _, _) => {OrderRow(o)}
    case InsertTickets(ids, o) => (set t | t in ids :: TicketSlot(t)) + {OrderRow(o)}
    case InsertRefund(f, _) => {RefundSlot(f)}
    case LinkRefund(f, _) => {RefundSlot(f)}
    case ReturnTickets(o, _) => {OrderRow(o)}
    case SettleOrder(o) => {OrderRow(o)}
    case WriteLog(_, _) => {}
    case LogRefund(_, _, o, _, _) => {OrderRow(o)}
  }

  lemma LocksMean(s: Stmt)
    ensures Locks(s) == Needs(s)
  {}

  /** No committed row has the id, or the key, that the statement inserts. */
  predicate NothingInTheWay(db: Db, s: Stmt) {
    match s
    case InsertReservation(r, _) => r !in db.reservations
    case InsertOrder(o, row) => o !in db.orders && row.key !in db.keyIndex
    case InsertTickets(ids, _) => IdsFree(db, ids)
    case InsertRefund(f, _) => f !in db.refunds
    case _ => true
  }

  lemma NothingInTheWayMeans(db: Db, s: Stmt)
    ensures NothingInTheWay(db, s) <==> Vacant(db, s)
  {
    if s.InsertTickets? {
      IdsMean(db, s.newTickets);
    }
  }

  /** The next statement runs as soon as nobody else holds its locks. If an INSERT finds its id or
      key taken, the transaction is answered or becomes a duplicate instead. */
  lemma Executes(init: Db, steps: seq<Action>, tid: nat)
    requires Inv(init) && OpenIn(init, steps, tid)
    requires var x := Interleave(init, steps).value.txns[tid]; x.phase.Writing? && x.phase.pc < |x.phase.plan|
    requires var m := Interleave(init, steps).value;
             forall l | l in Locks(m.txns[tid].phase.plan[m.txns[tid].phase.pc]) :: NobodyElseHolds(m, tid, l)
    ensures var m := Interleave(init, steps).value;
            var x := m.txns[tid];
            var s := x.phase.plan[x.phase.pc];
            if NothingInTheWay(m.db, s) then
              && Interleave(init, steps + [Execute(tid)]).Some?
              && var m' := Interleave(init, steps + [Execute(tid)]).value;
                 Moved(m, m', tid, x.locks + Locks(s)) && tid in m'.txns
                 && m'.txns[tid].phase == x.phase.(pc := x.phase.pc + 1)
            else Interleave(init, steps + [Collide(tid)]).Some? || Interleave(init, steps + [Clash(tid)]).Some?
  {
    hide Inv, Constraints, MachineOk, TxnOk, Locks, Needs, Vacant, Clashes, Passes, Exec, NothingInTheWay;
    var m := Interleave(init, steps).value;
    var x := m.txns[tid];
    var s := x.phase.plan[x.phase.pc];
    InterleavingKeeps(init, steps);
    OpenIsOk(init, m, tid);
    NothingInTheWayMeans(m.db, s);
    LocksMean(s);
    FreeMeans(m, tid, Locks(s));
    if Vacant(m.db, s) {
      StatementPasses(init, m, tid);
      Extends(init, steps, Execute(tid));
    } else if Clashes(m.db, s) {
      Extends(init, steps, Clash(tid));
    } else {
      InTheWay(m.db, s);
      OrderInsert(m.db, x);
      KeyAmongLocks(m, tid, s);
      Extends(init, steps, Collide(tid));
    }
  }

  lemma KeyAmongLocks(m: State, tid: nat, s: Stmt)
    requires s.InsertOrder? && Free(m, tid, Needs(s))
    ensures Free(m, tid, {KeySlot(s.orderRow.key)})
  {}

  /** A transaction that has run all its statements commits, whatever else is open. */
  lemma Commits(init: Db, steps: seq<Action>, tid: nat)
    requires Inv(init) && OpenIn(init, steps, tid)
    requires var x := Interleave(init, steps).value.txns[tid]; x.phase.Writing? && x.phase.pc == |x.phase.plan|
    ensures var m := Interleave(init, steps).value;
            var x := m.txns[tid];
            Interleave(init, steps + [Commit(tid)])
            == Some(State(Merge(m.db, x.writes), m.txns - {tid}, m.history + [Entry(x.request, x.phase.reply)]))
  {
    hide Inv, Constraints, Merge;
    Extends(init, steps, Commit(tid));
  }

  /** A transaction may be lost at any time; nothing of it remains. */
  lemma Crashes(init: Db, steps: seq<Action>, tid: nat)
    requires Inv(init) && OpenIn(init, steps, tid)
    ensures var m := Interleave(init, steps).value;
            Interleave(init, steps + [Crash(tid)]) == Some(State(m.db, m.txns - {tid}, m.history))
  {
    hide Inv, Constraints;
    Extends(init, steps, Crash(tid));
  }

  /** Sales are paused and resumed as soon as no open transaction has read the event. */
  lemma Toggles(init: Db, steps: seq<Action>, e: Id, paused: bool)
    requires Inv(init) && Interleave(init, steps).Some? && e in Interleave(init, steps).value.db.events
    requires forall u | u in Interleave(init, steps).value.txns :: e !in Interleave(init, steps).value.txns[u].events
    ensures Interleave(init, steps + [Toggle(e, paused)]).Some?
    ensures var m, m' := Interleave(init, steps).value, Interleave(init, steps + [Toggle(e, paused)]).value;
            m'.txns == m.txns && e in m'.db.events && m'.db.events[e].salesPaused == paused
  {
    hide Inv, Constraints;
    Extends(init, steps, Toggle(e, paused));
  }
}

/** Statements touch only the rows their transaction has locked: what a commit can change
    and what it leaves alone. */
module Footprints {
  import opened Sums
  import opened Schema
  import opened Services
  import opened Machine

  // ---------- private writes stay within the locks ----------

  predicate TypesWithin(types: map<Id, TicketType>, w: map<Id, TicketType>, locks: set<Lock>) {
    forall t | t in w :: t in types && TypeRow(t) in locks && w[t] == types[t].(sold := w[t].sold, held := w[t].held)
  }

  predicate ReservationsWithin(w: map<Id, Reservation>, locks: set<Lock>) {
    forall r | r in w :: ReservationRow(r) in locks
  }

  predicate OrdersWithin(w: map<Id, Order>, locks: set<Lock>) {
    forall o | o in w :: OrderRow(o) in locks
  }

  predicate KeysWithin(w: map<string, Id>, locks: set<Lock>) {
    forall k | k in w :: KeySlot(k) in locks
  }

  /** Tickets are guarded by their order's lock; a new ticket also by its own id. */
  predicate TicketsWithin(tickets: map<Id, Ticket>, w: map<Id, Ticket>, locks: set<Lock>) {
    forall t | t in w :: OrderRow(w[t].order) in locks
                         && (if t in tickets then tickets[t].order == w[t].order else TicketSlot(t) in locks)
  }

  predicate RefundsWithin(w: map<Id, Refund>, locks: set<Lock>) {
    forall f | f in w :: RefundSlot(f) in locks
  }

  predicate Within(db: Db, w: Db, locks: set<Lock>) {
    && TypesWithin(db.types, w.types, locks) && ReservationsWithin(w.reservations, locks)
    && OrdersWithin(w.orders, locks) && KeysWithin(w.keyIndex, locks)
    && TicketsWithin(db.tickets, w.tickets, locks) && RefundsWithin(w.refunds, locks)
    && w.events == map[]
  }

  lemma NoWritesWithin(db: Db, locks: set<Lock>)
    ensures Within(db, NO_WRITES, locks)
  {}

  lemma MintWithin(tickets: map<Id, Ticket>, w: map<Id, Ticket>, ids: seq<Id>, o: Id, locks: set<Lock>)
    requires TicketsWithin(tickets, w, locks) && OrderRow(o) in locks
    requires Members(ids) !! tickets.Keys && forall t | t in ids :: TicketSlot(t) in locks
    ensures TicketsWithin(tickets, WithTickets(w, ids, o), locks)
  {}

  lemma ReturnWithin(tickets: map<Id, Ticket>, w: map<Id, Ticket>, o: Id, only: seq<Id>, locks: set<Lock>)
    requires TicketsWithin(tickets, w, locks) && OrderRow(o) in locks
    ensures var seen := tickets + w;
            TicketsWithin(tickets, w + map t | t in Matching(seen, o, only) ::
                                         seen[t].(status := TicketStatus.Refunded), locks)
  {}

  lemma CounterWithin(types: map<Id, TicketType>, w: map<Id, TicketType>, t: Id, sold: int, held: int, locks: set<Lock>)
    requires TypesWithin(types, w, locks) && TypeRow(t) in locks && t in types + w
    ensures TypesWithin(types, w[t := (types + w)[t].(sold := sold, held := held)], locks)
  {}

  lemma ReservationWithin(w: map<Id, Reservation>, r: Id, row: Reservation, locks: set<Lock>)
    requires ReservationsWithin(w, locks) && ReservationRow(r) in locks
    ensures ReservationsWithin(w[r := row], locks)
  {}

  lemma OrderWithin(w: map<Id, Order>, o: Id, row: Order, locks: set<Lock>)
    requires OrdersWithin(w, locks) && OrderRow(o) in locks
    ensures OrdersWithin(w[o := row], locks)
  {}

  lemma RefundWithin(w: map<Id, Refund>, f: Id, row: Refund, locks: set<Lock>)
    requires RefundsWithin(w, locks) && RefundSlot(f) in locks
    ensures RefundsWithin(w[f := row], locks)
  {}

  lemma KeyWithin(w: map<string, Id>, k: string, o: Id, locks: set<Lock>)
    requires KeysWithin(w, locks) && KeySlot(k) in locks
    ensures KeysWithin(w[k := o], locks)
  {}

  lemma CounterStatementWithin(db: Db, w: Db, s: Stmt, locks: set<Lock>)
    requires s.AddCounters? || s.WriteHeld?
    requires Within(db, w, locks) && Needs(s) <= locks
    ensures Within(db, Exec(db, w, s), locks)
  {
    hide TypesWithin, ReservationsWithin, OrdersWithin, KeysWithin, TicketsWithin, RefundsWithin;
    var t := s.ticketType;
    if t in db.types + w.types {
      var row := Exec(db, w, s).types[t];
      CounterWithin(db.types, w.types, t, row.sold, row.held, locks);
    }
  }

  /** A statement writes only rows it has locked. */
  lemma ExecWithin(db: Db, w: Db, s: Stmt, locks: set<Lock>)
    requires Within(db, w, locks) && Needs(s) <= locks && Vacant(db, s)
    ensures Within(db, Exec(db, w, s), locks)
  {
    hide TypesWithin, ReservationsWithin, OrdersWithin, KeysWithin, TicketsWithin, RefundsWithin, WithTickets, Matching;
    var e := Exec(db, w, s);
    match s
    case AddCounters(_, _, _) => CounterStatementWithin(db, w, s, locks);
    case WriteHeld(_, _) => CounterStatementWithin(db, w, s, locks);
    case InsertReservation(r, row) => ReservationWithin(w.reservations, r, row, locks);
    case SetReservation(r, _) =>
      if r in db.reservations + w.reservations {
        ReservationWithin(w.reservations, r, e.reservations[r], locks);
      }
    case InsertOrder(o, row) =>
      OrderWithin(w.orders, o, row, locks);
      KeyWithin(w.keyIndex, row.key, o, locks);
    case SetOrder(o, _, _, _) =>
      if o in db.orders + w.orders {
        OrderWithin(w.orders, o, e.orders[o], locks);
      }
    case InsertTickets(ids, o) => MintWithin(db.tickets, w.tickets, ids, o, locks);
    case InsertRefund(f, row) => RefundWithin(w.refunds, f, row, locks);
    case LinkRefund(f, _) =>
      if f in db.refunds + w.refunds {
        RefundWithin(w.refunds, f, e.refunds[f], locks);
      }
    case ReturnTickets(o, only) => ReturnWithin(db.tickets, w.tickets, o, only, locks);
    case SettleOrder(o) =>
      if o in db.orders + w.orders {
        OrderWithin(w.orders, o, e.orders[o], locks);
      }
    case WriteLog(_, _) =>
    case LogRefund(_, _, _, _, _) =>
  }

  /** The first k statements of the plan hold their locks and found their ids unused. */
  predicate Claimed(db: Db, plan: seq<Stmt>, k: nat, locks: set<Lock>)
    requires k <= |plan|
  {
    forall i | 0 <= i < k :: Needs(plan[i]) <= locks && Vacant(db, plan[i])
  }

  lemma {:induction false} WritesWithin(db: Db, plan: seq<Stmt>, k: nat, locks: set<Lock>)
    requires k <= |plan| && Claimed(db, plan, k, locks)
    ensures Within(db, WritesAfter(db, plan, k), locks)
  {
    hide Within, Needs, Vacant, Exec;
    if k == 0 {
      NoWritesWithin(db, locks);
    } else {
      WritesWithin(db, plan, k - 1, locks);
      ExecWithin(db, WritesAfter(db, plan, k - 1), plan[k - 1], locks);
    }
  }

  // ---------- what a commit can change ----------

  predicate TypesConfined(a: map<Id, TicketType>, b: map<Id, TicketType>, locks: set<Lock>) {
    && a.Keys == b.Keys
    && (forall t | t in a :: b[t] == a[t].(sold := b[t].sold, held := b[t].held))
    && (forall t | t in a :: TypeRow(t) in locks || b[t] == a[t])
  }

  predicate ReservationsConfined(a: map<Id, Reservation>, b: map<Id, Reservation>, locks: set<Lock>) {
    && (forall r | r in a :: r in b && (ReservationRow(r) in locks || b[r] == a[r]))
    && (forall r | r in b :: r in a || ReservationRow(r) in locks)
  }

  predicate OrdersConfined(a: map<Id, Order>, b: map<Id, Order>, locks: set<Lock>) {
    && (forall o | o in a :: o in b && (OrderRow(o) in locks || b[o] == a[o]))
    && (forall o | o in b :: o in a || OrderRow(o) in locks)
  }

  predicate KeysConfined(a: map<string, Id>, b: map<string, Id>, locks: set<Lock>) {
    && (forall k | k in a :: k in b && (KeySlot(k) in locks || b[k] == a[k]))
    && (forall k | k in b :: k in a || KeySlot(k) in locks)
  }

  predicate TicketsConfined(a: map<Id, Ticket>, b: map<Id, Ticket>, locks: set<Lock>) {
    && (forall t | t in a :: t in b && b[t].order == a[t].order && (OrderRow(a[t].order) in locks || b[t] == a[t]))
    && (forall t | t in b :: t in a || (OrderRow(b[t].order) in locks && TicketSlot(t) in locks))
  }

  predicate RefundsConfined(a: map<Id, Refund>, b: map<Id, Refund>, locks: set<Lock>) {
    && (forall f | f in a :: f in b && (RefundSlot(f) in locks || b[f] == a[f]))
    && (forall f | f in b :: f in a || RefundSlot(f) in locks)
  }

  /** d differs from db only in rows of the lock set. */
  predicate Confined(db: Db, d: Db, locks: set<Lock>) {
    && TypesConfined(db.types, d.types, locks) && ReservationsConfined(db.reservations, d.reservations, locks)
    && OrdersConfined(db.orders, d.orders, locks) && KeysConfined(db.keyIndex, d.keyIndex, locks)
    && TicketsConfined(db.tickets, d.tickets, locks) && RefundsConfined(db.refunds, d.refunds, locks)
  }

  lemma MergeConfined(db: Db, w: Db, locks: set<Lock>)
    requires Within(db, w, locks)
    ensures Confined(db, Merge(db, w), locks)
  {
    assert (db.types + w.types).Keys == db.types.Keys;
  }

  // ---------- statements over locked rows do not notice other commits ----------

  lemma MatchingAgrees(a: map<Id, Ticket>, b: map<Id, Ticket>, w: map<Id, Ticket>, locks: set<Lock>, o: Id,
                       only: seq<Id>)
    requires TicketsConfined(a, b, locks) && OrderRow(o) !in locks
    ensures Matching(a + w, o, only) == Matching(b + w, o, only)
    ensures ActiveTickets(a + w, o) == ActiveTickets(b + w, o)
    ensures forall t | t in Matching(a + w, o, only) :: (a + w)[t] == (b + w)[t]
  {
    forall t ensures t in ActiveTickets(a + w, o) <==> t in ActiveTickets(b + w, o) {
      assert t in a + w <==> t in a || t in w;
      assert t in b + w <==> t in b || t in w;
    }
  }

  lemma ReturnAgrees(a: map<Id, Ticket>, b: map<Id, Ticket>, w: map<Id, Ticket>, locks: set<Lock>, o: Id, only: seq<Id>)
    requires TicketsConfined(a, b, locks) && OrderRow(o) !in locks
    ensures (map t | t in Matching(a + w, o, only) :: (a + w)[t].(status := TicketStatus.Refunded))
         == (map t | t in Matching(b + w, o, only) :: (b + w)[t].(status := TicketStatus.Refunded))
  {
    hide Matching, TicketsConfined;
    MatchingAgrees(a, b, w, locks, o, only);
  }

  lemma TypeSeen(a: map<Id, TicketType>, b: map<Id, TicketType>, w: map<Id, TicketType>, locks: set<Lock>, t: Id)
    requires TypesConfined(a, b, locks) && TypeRow(t) !in locks
    ensures (t in a + w <==> t in b + w) && (t in a + w ==> (a + w)[t] == (b + w)[t])
  {}

  lemma ReservationSeen(a: map<Id, Reservation>, b: map<Id, Reservation>, w: map<Id, Reservation>, locks: set<Lock>,
                        r: Id)
    requires ReservationsConfined(a, b, locks) && ReservationRow(r) !in locks
    ensures (r in a + w <==> r in b + w) && (r in a + w ==> (a + w)[r] == (b + w)[r])
  {}

  lemma OrderSeen(a: map<Id, Order>, b: map<Id, Order>, w: map<Id, Order>, locks: set<Lock>, o: Id)
    requires OrdersConfined(a, b, locks) && OrderRow(o) !in locks
    ensures (o in a + w <==> o in b + w) && (o in a + w ==> (a + w)[o] == (b + w)[o])
  {}

  lemma RefundSeen(a: map<Id, Refund>, b: map<Id, Refund>, w: map<Id, Refund>, locks: set<Lock>, f: Id)
    requires RefundsConfined(a, b, locks) && RefundSlot(f) !in locks
    ensures (f in a + w <==> f in b + w) && (f in a + w ==> (a + w)[f] == (b + w)[f])
  {}

  lemma ExecAgrees(db: Db, d: Db, w: Db, s: Stmt, locks: set<Lock>)
    requires Confined(db, d, locks) && Needs(s) !! locks
    ensures Exec(db, w, s) == Exec(d, w, s)
  {
    hide Matching, ActiveTickets, TypesConfined, ReservationsConfined, OrdersConfined, KeysConfined,
         TicketsConfined, RefundsConfined, WithTickets;
    match s
    case AddCounters(t, _, _) => TypeSeen(db.types, d.types, w.types, locks, t);
    case WriteHeld(t, _) => TypeSeen(db.types, d.types, w.types, locks, t);
    case InsertReservation(_, _) =>
    case SetReservation(r, _) => ReservationSeen(db.reservations, d.reservations, w.reservations, locks, r);
    case InsertOrder(_, _) =>
    case SetOrder(o, _, _, _) => OrderSeen(db.orders, d.orders, w.orders, locks, o);
    case InsertTickets(_, _) =>
    case InsertRefund(_, _) =>
    case LinkRefund(f, _) => RefundSeen(db.refunds, d.refunds, w.refunds, locks, f);
    case ReturnTickets(o, only) => ReturnAgrees(db.tickets, d.tickets, w.tickets, locks, o, only);
    case SettleOrder(o) =>
      OrderSeen(db.orders, d.orders, w.orders, locks, o);
      MatchingAgrees(db.tickets, d.tickets, w.tickets, locks, o, []);
    case WriteLog(_, _) =>
    case LogRefund(_, _, o, _, _) => OrderSeen(db.orders, d.orders, w.orders, locks, o);
  }

  lemma {:induction false} WritesAgree(db: Db, d: Db, plan: seq<Stmt>, k: nat, mine: set<Lock>, locks: set<Lock>)
    requires k <= |plan| && Confined(db, d, locks) && mine !! locks && Claimed(db, plan, k, mine)
    ensures WritesAfter(db, plan, k) == WritesAfter(d, plan, k)
  {
    hide Confined, Exec, Needs, Vacant;
    if k > 0 {
      WritesAgree(db, d, plan, k - 1, mine, locks);
      assert Needs(plan[k - 1]) !! locks;
      ExecAgrees(db, d, WritesAfter(db, plan, k - 1), plan[k - 1], locks);
    }
  }

  lemma VacantAgrees(db: Db, d: Db, s: Stmt, locks: set<Lock>)
    requires Confined(db, d, locks) && Needs(s) !! locks && Vacant(db, s)
    ensures Vacant(d, s)
  {
    if s.InsertTickets? {
      forall t | t in Members(s.newTickets) ensures t !in d.tickets {
        assert TicketSlot(t) in Needs(s);
      }
    }
  }

  lemma ClaimsAgree(db: Db, d: Db, plan: seq<Stmt>, k: nat, mine: set<Lock>, locks: set<Lock>)
    requires k <= |plan| && Confined(db, d, locks) && mine !! locks && Claimed(db, plan, k, mine)
    ensures Claimed(d, plan, k, mine)
  {
    hide Confined, Needs, Vacant;
    forall i | 0 <= i < k ensures Vacant(d, plan[i]) {
      VacantAgrees(db, d, plan[i], locks);
    }
  }
}

/** Every service keeps the invariant, so every run from a consistent database stays consistent. */
module Preservation {
  import opened Sums
  import opened Schema
  import opened Services
  import opened Invariants

  // ---------- one hold and the `held` of its type change together ----------

  lemma HoldKeepsReservations(rs: map<Id, Reservation>, orders: map<Id, Order>, types: set<Id>, r: Id, row: Reservation)
    requires ReservationsOk(rs, orders) && ReservationsLinked(rs, types) && ReservationsFit(rs)
    requires row.ticketType in types && row.quantity >= 1 && !row.status.Confirmed?
    requires if r in rs then !rs[r].status.Confirmed? else Sales(orders, r) == {}
    ensures ReservationsOk(rs[r := row], orders)
    ensures ReservationsLinked(rs[r := row], types) && ReservationsFit(rs[r := row])
  {
    hide Sales;
  }

  lemma HoldKeepsOrders(orders: map<Id, Order>, rs: map<Id, Reservation>, types: map<Id, TicketType>, events: set<Id>,
                        r: Id, row: Reservation, t: Id, type': TicketType)
    requires OrdersMatch(orders, rs, types) && OrdersLinked(orders, events, rs.Keys, types.Keys)
    requires r in rs ==> rs[r].quantity == row.quantity && rs[r].ticketType == row.ticketType
    requires t in types && type'.event == types[t].event
    ensures OrdersMatch(orders, rs[r := row], types[t := type'])
    ensures OrdersLinked(orders, events, rs[r := row].Keys, types[t := type'].Keys)
  {}

  lemma MoveKeepsTypes(types: map<Id, TicketType>, events: set<Id>, t: Id, sold: int, held: int)
    requires TypesLinked(types, events) && TypesFit(types) && t in types && TypeFits(Move(types[t], sold, held))
    ensures TypesLinked(types[t := Move(types[t], sold, held)], events)
    ensures TypesFit(types[t := Move(types[t], sold, held)])
    ensures types[t := Move(types[t], sold, held)].Keys == types.Keys
  {}

  /** `held` and one reservation written together. */
  function HoldWrite(db: Db, r: Id, row: Reservation): Db
    requires row.ticketType in db.types
  {
    db.(types := db.types[row.ticketType :=
          Move(db.types[row.ticketType], 0, Held(row) - HeldIn(db.reservations, r))],
        reservations := db.reservations[r := row])
  }

  lemma HoldWriteKeepsInv(db: Db, r: Id, row: Reservation)
    requires Inv(db) && row.ticketType in db.types && row.quantity >= 1 && !row.status.Confirmed?
    requires r in db.reservations ==>
               !db.reservations[r].status.Confirmed?
               && db.reservations[r].quantity == row.quantity && db.reservations[r].ticketType == row.ticketType
    requires r !in db.reservations ==> Sales(db.orders, r) == {}
    requires TypeFits(HoldWrite(db, r, row).types[row.ticketType])
    ensures Inv(HoldWrite(db, r, row))
  {
    hide TypesLinked, TypesFit, ReservationsLinked, ReservationsFit, ReservationsOk, OrdersMatch, OrdersLinked,
         CountersExact, OrdersOk, OrdersFit, TicketsOk, TicketsLinked, RefundsFit, RefundsLinked, KeysUnique;
    var t, delta := row.ticketType, Held(row) - HeldIn(db.reservations, r);
    MoveKeepsTypes(db.types, db.events.Keys, t, 0, delta);
    HoldKeepsReservations(db.reservations, db.orders, db.types.Keys, r, row);
    HoldKeepsOrders(db.orders, db.reservations, db.types, db.events.Keys, r, row, t, Move(db.types[t], 0, delta));
    HoldKeepsCounters(db.types, db.tickets, db.orders, db.reservations, r, row);
  }

  lemma LogKeepsInv(db: Db, actor: string, change: Change)
    requires Inv(db)
    ensures Inv(Log(db, actor, change))
  {
    hide TypesLinked, TypesFit, ReservationsLinked, ReservationsFit, ReservationsOk, OrdersMatch, OrdersLinked,
         CountersExact, OrdersOk, OrdersFit, TicketsOk, TicketsLinked, RefundsFit, RefundsLinked, KeysUnique;
  }

  // ---------- create_reservation ----------

  lemma NoSalesYet(db: Db, r: Id)
    requires Inv(db) && r !in db.reservations
    ensures Sales(db.orders, r) == {}
  {
    hide OrdersOk, CountersExact, KeysUnique;
  }

  lemma CreateKeepsInv(db: Db, q: Request)
    requires Inv(db) && Admissible(db, q) && q.Create?
    ensures Inv(CreateReservation(db, q).db)
  {
    hide ReservationsOk, OrdersMatch, CountersExact, OrdersOk, OrdersFit, TicketsOk, TicketsLinked, KeysUnique;
    var r, d := q.newReservation, CreateReservation(db, q).db;
    if d != db {
      NoSalesYet(db, r);
      HeldNonNegative(db.reservations, q.ticketType);
      var held := HoldWrite(db, r, d.reservations[r]);
      HoldWriteKeepsInv(db, r, d.reservations[r]);
      LogKeepsInv(held, q.user.email, InventoryHeld(q.ticketType, q.quantity, r));
      assert d == Log(held, q.user.email, InventoryHeld(q.ticketType, q.quantity, r));
    }
  }

  // ---------- cancel_reservation and one step of the sweep ----------

  /** The hold of an ACTIVE reservation is part of `held`, so releasing it cannot go negative. */
  lemma ActiveIsReleasable(db: Db, r: Id)
    requires Inv(db) && r in db.reservations && db.reservations[r].status.Active?
    ensures Releasable(db, r)
  {
    hide OrdersOk, OrdersFit, RefundsFit, TicketsOk, KeysUnique, OrdersMatch, ReservationsOk;
    HeldCovers(db.reservations, r);
  }

  lemma ReleaseKeepsInv(db: Db, r: Id, status: ReservationStatus, actor: string, change: Change)
    requires Inv(db) && r in db.reservations && db.reservations[r].status.Active?
    requires status.Expired? || status.Cancelled?
    ensures Releasable(db, r) && Inv(Release(db, r, status, actor, change))
  {
    ActiveIsReleasable(db, r);
    hide ReservationsOk, OrdersMatch, CountersExact, OrdersOk, OrdersFit, TicketsOk, TicketsLinked, KeysUnique;
    var row := db.reservations[r].(status := status);
    HoldWriteKeepsInv(db, r, row);
    LogKeepsInv(HoldWrite(db, r, row), actor, change);
  }

  lemma CancelKeepsInv(db: Db, q: Request)
    requires Inv(db) && q.Cancel?
    ensures Inv(CancelReservation(db, q).db)
    ensures CancelReservation(db, q).reply != Raised(DatabaseError)
  {
    hide CountersExact, OrdersOk, ReservationsOk, TicketsOk, Releasable, Release;
    if q.reservation in db.reservations && db.reservations[q.reservation].status.Active? {
      ReleaseKeepsInv(db, q.reservation, ReservationStatus.Cancelled, q.user.email,
                      HoldCancelled(q.reservation, db.reservations[q.reservation].quantity));
    }
  }

  // ---------- sweep_expired_reservations ----------

  /** The sweep never trips a constraint: it expires every selected row. */
  lemma {:induction false} ExpireRowsKeepsInv(db: Db, now: int, rows: seq<Id>)
    requires Inv(db) && Selection(db, now, rows)
    ensures ExpireRows(db, rows).Some? && Inv(ExpireRows(db, rows).value)
    ensures forall r | r in db.reservations :: ExpireRows(db, rows).value.reservations[r] ==
              if r in rows then db.reservations[r].(status := ReservationStatus.Expired) else db.reservations[r]
  {
    hide CountersExact, OrdersOk, ReservationsOk, TicketsOk, Constraints, OrdersMatch;
    if rows != [] {
      var n := |rows| - 1;
      assert forall r | r in rows[..n] :: r in rows;
      var d := ExpireRows(db, rows[..n]);
      ExpireRowsKeepsInv(db, now, rows[..n]);
      assert rows[n] !in rows[..n] && Stale(db, now, rows[n]);
      ReleaseKeepsInv(d.value, rows[n], ReservationStatus.Expired, "system_sweep",
                      HoldExpired(rows[n], d.value.reservations[rows[n]].quantity));
    }
  }

  // ---------- process_purchase ----------

  /** The guards that both a declined and a paid purchase have passed. */
  predicate Purchasable(db: Db, p: Request) {
    && p.Purchase? && Admissible(db, p)
    && p.reservation in db.reservations && db.reservations[p.reservation].status.Active?
    && db.reservations[p.reservation].quantity >= 1
    && db.reservations[p.reservation].ticketType in db.types
    && p.key !in db.keyIndex && p.newOrder !in db.orders
    && (p.capture.Approved? ==> Mintable(db, p.newTickets))
    && OrderFits(OrderFor(db, p))
  }

  function OrderFor(db: Db, p: Request): Order
    requires p.Purchase? && p.reservation in db.reservations
    requires db.reservations[p.reservation].ticketType in db.types
  {
    var row := db.reservations[p.reservation];
    NewOrder(p, row, db.types[row.ticketType])
  }

  lemma Scale(k: int, n: int)
    requires k >= 1 && n >= 1
    ensures k * n >= n
  {}

  lemma DivideBack(unit: int, quantity: int)
    requires quantity >= 1
    ensures (unit * quantity) / quantity == unit
  {
    var product := unit * quantity;
    var q, r := product / quantity, product % quantity;
    assert product == q * quantity + r;
    assert (unit - q) * quantity == r;
    if unit - q >= 1 {
      Scale(unit - q, quantity);
    } else if unit - q <= -1 {
      Scale(q - unit, quantity);
    }
  }

  lemma Distribute(a: int, b: int, c: int, n: int)
    ensures a * n + b * n + c * n == (a + b + c) * n
  {}

  /** The order row prices every ticket alike, so the refund's floor divisions are exact. */
  lemma NewOrderPriced(p: Request, row: Reservation, t: TicketType, o: Order)
    requires p.Purchase? && row.quantity >= 1
    requires o == NewOrder(p, row, t).(status := o.status, paymentId := o.paymentId, captured := o.captured)
    ensures Priced(o) && UnitCharge(o) == t.price + t.fee + t.tax
    ensures o.total + o.fees + o.tax == UnitCharge(o) * o.quantity
  {
    DivideBack(t.fee, row.quantity);
    DivideBack(t.tax, row.quantity);
    Distribute(t.price, t.fee, t.tax, row.quantity);
  }

  /** A new order joins consistent books without disturbing the others. */
  lemma NewOrderKeepsBooks(orders: map<Id, Order>, tickets: map<Id, Ticket>, tickets': map<Id, Ticket>,
                           refunds: map<Id, Refund>, o: Id, row: Order, ids: set<Id>)
    requires TicketsLinked(tickets, orders.Keys) && RefundsLinked(refunds, orders.Keys)
    requires OrdersOk(orders, tickets, refunds)
    requires o !in orders && Minted(tickets, tickets', o, ids)
    requires BooksOk(row, Tally(|ids|, |ids|, 0, 0))
    ensures OrdersOk(orders[o := row], tickets', refunds)
  {
    hide BooksOk, TallyOf, Minted;
    var orders' := orders[o := row];
    forall i | i in orders' ensures BooksOk(orders'[i], TallyOf(tickets', refunds, i)) {
      MintTally(tickets, tickets', refunds, orders.Keys, o, ids, i);
    }
  }

  lemma NewKeyStaysUnique(index: map<string, Id>, orders: map<Id, Order>, o: Id, row: Order)
    requires KeysUnique(index, orders) && o !in orders && row.key !in index
    ensures KeysUnique(index[row.key := o], orders[o := row])
  {}

  /** The row fits the tables it points at. */
  predicate Placeable(db: Db, o: Id, row: Order) {
    && o !in db.orders && row.key !in db.keyIndex
    && Matches(row, db.reservations, db.types) && row.event in db.events && OrderFits(row)
  }

  lemma PlacedOrderKeepsTables(db: Db, o: Id, row: Order)
    requires Constraints(db) && OrdersMatch(db.orders, db.reservations, db.types) && Placeable(db, o, row)
    ensures var os := db.orders[o := row];
            && OrdersLinked(os, db.events.Keys, db.reservations.Keys, db.types.Keys)
            && OrdersFit(os) && OrdersMatch(os, db.reservations, db.types)
            && KeysUnique(db.keyIndex[row.key := o], os)
            && TicketsLinked(db.tickets, os.Keys) && RefundsLinked(db.refunds, os.Keys)
  {
    hide TypesFit, RefundsFit, OrderFits;
    NewKeyStaysUnique(db.keyIndex, db.orders, o, row);
    hide KeysUnique;
  }

  lemma OrderForPlaceable(db: Db, p: Request, row: Order)
    requires Inv(db) && Purchasable(db, p)
    requires row == OrderFor(db, p).(status := row.status, paymentId := row.paymentId, captured := row.captured)
    ensures Placeable(db, p.newOrder, row) && row.key == p.key
  {
    hide OrdersOk, CountersExact, ReservationsOk, TypesFit, TicketsOk, KeysUnique, OrdersLinked, OrdersMatch, OrdersFit;
  }

  lemma FailedOrderKeepsReservations(rs: map<Id, Reservation>, orders: map<Id, Order>, o: Id, row: Order)
    requires ReservationsOk(rs, orders) && o !in orders && row.status.Failed?
    ensures ReservationsOk(rs, orders[o := row])
  {
    forall r ensures Sales(orders[o := row], r) == Sales(orders, r) {}
  }

  lemma OrderKeepsCounters(types: map<Id, TicketType>, tickets: map<Id, Ticket>, orders: map<Id, Order>,
                           rs: map<Id, Reservation>, o: Id, row: Order)
    requires CountersExact(types, tickets, orders, rs) && TicketsLinked(tickets, orders.Keys)
    requires o in orders ==> row.ticketType == orders[o].ticketType
    ensures CountersExact(types, tickets, orders[o := row], rs)
  {
    forall t | t in types ensures types[t].sold == ActualSold(tickets, orders[o := row], t) {
      SoldFrame(tickets, orders, orders[o := row], t);
    }
  }

  lemma DeclineKeepsInv(db: Db, p: Request)
    requires Inv(db) && Purchasable(db, p)
    ensures Inv(WithOrder(db, p.newOrder, OrderFor(db, p).(status := OrderStatus.Failed)))
  {
    hide Placeable, BooksOk, OrderFits, Minted, Priced, UnitCharge,
         TypesLinked, TypesFit, ReservationsLinked, ReservationsFit, ReservationsOk, OrdersMatch, OrdersLinked,
         CountersExact, OrdersOk, OrdersFit, TicketsOk, TicketsLinked, RefundsFit, RefundsLinked, KeysUnique;
    var o, row := p.newOrder, OrderFor(db, p).(status := OrderStatus.Failed);
    OrderForPlaceable(db, p, row);
    NewOrderPriced(p, db.reservations[p.reservation], db.types[row.ticketType], row);
    OpeningBooks(row, 0);
    MintedNone(db.tickets, o);
    NotYetPlaced(db, o, row);
    PlacedOrderKeepsTables(db, o, row);
    NewOrderKeepsBooks(db.orders, db.tickets, db.tickets, db.refunds, o, row, {});
    FailedOrderKeepsReservations(db.reservations, db.orders, o, row);
    OrderKeepsCounters(db.types, db.tickets, db.orders, db.reservations, o, row);
  }

  lemma MintedNone(tickets: map<Id, Ticket>, o: Id)
    ensures Minted(tickets, tickets, o, {})
  {}

  lemma NotYetPlaced(db: Db, o: Id, row: Order)
    requires Placeable(db, o, row)
    ensures o !in db.orders && row.key !in db.keyIndex
  {}

  /** A new order's books balance before any refund. */
  lemma OpeningBooks(row: Order, n: int)
    requires Priced(row) && row.total + row.fees + row.tax == UnitCharge(row) * row.quantity
    requires if row.status.Failed? then n == 0 && row.captured == 0
             else n == row.quantity && row.status == OrderStatus.Confirmed && row.captured == AmountDue(row)
    ensures BooksOk(row, Tally(n, n, 0, 0))
  {}

  /** An ACTIVE hold can always become sold. */
  lemma MoveFits(db: Db, r: Id)
    requires Inv(db) && r in db.reservations && db.reservations[r].status.Active?
    ensures var row := db.reservations[r];
            row.ticketType in db.types && TypeFits(Move(db.types[row.ticketType], row.quantity, -row.quantity))
  {
    hide OrdersOk, OrdersMatch, KeysUnique, ReservationsOk, OrdersFit;
    HeldCovers(db.reservations, r);
  }

  lemma FulfilSold(types: map<Id, TicketType>, tickets: map<Id, Ticket>, tickets': map<Id, Ticket>,
                   orders: map<Id, Order>, rs: map<Id, Reservation>, o: Id, order: Order, r: Id, ids: set<Id>)
    requires CountersExact(types, tickets, orders, rs) && TicketsLinked(tickets, orders.Keys)
    requires o !in orders && r in rs && rs[r].status.Active?
    requires rs[r].ticketType == order.ticketType && order.ticketType in types
    requires |ids| == rs[r].quantity && Minted(tickets, tickets', o, ids)
    ensures var t := order.ticketType;
            CountersExact(types[t := Move(types[t], |ids|, -|ids|)], tickets', orders[o := order],
                          rs[r := rs[r].(status := ReservationStatus.Confirmed)])
  {
    hide Minted, TicketsLinked, ActualSold, ActualHeld;
    var row := rs[r].(status := ReservationStatus.Confirmed);
    forall t ensures ActualSold(tickets', orders[o := order], t)
                  == ActualSold(tickets, orders, t) + if t == order.ticketType then |ids| else 0 {
      SoldMint(tickets, tickets', orders, o, order, ids, t);
    }
    forall t ensures ActualHeld(rs[r := row], t) == ActualHeld(rs, t) - if t == order.ticketType then |ids| else 0 {
      HeldPoint(rs, r, row, t);
    }
  }

  lemma SaleConfirms(rs: map<Id, Reservation>, orders: map<Id, Order>, r: Id, o: Id, order: Order)
    requires ReservationsOk(rs, orders) && r in rs && rs[r].status.Active?
    requires o !in orders && order.reservation == r && !order.status.Failed?
    ensures ReservationsOk(rs[r := rs[r].(status := ReservationStatus.Confirmed)], orders[o := order])
  {
    hide Sales;
    forall i ensures Sales(orders[o := order], i) == if i == r then Sales(orders, i) + {o} else Sales(orders, i) {
      SalesWithOrder(orders, o, order, i);
    }
    assert |Sales(orders, r)| == 0;
  }

  lemma SalesWithOrder(orders: map<Id, Order>, o: Id, order: Order, r: Id)
    requires o !in orders && !order.status.Failed?
    ensures Sales(orders[o := order], r) == if order.reservation == r then Sales(orders, r) + {o} else Sales(orders, r)
  {}

  lemma StatusWriteKeepsTables(db: Db, r: Id, status: ReservationStatus, orders: map<Id, Order>)
    requires r in db.reservations && ReservationsLinked(db.reservations, db.types.Keys)
    requires ReservationsFit(db.reservations) && OrdersMatch(orders, db.reservations, db.types)
    ensures var rs := db.reservations[r := db.reservations[r].(status := status)];
            && ReservationsLinked(rs, db.types.Keys) && ReservationsFit(rs) && OrdersMatch(orders, rs, db.types)
            && rs.Keys == db.reservations.Keys
  {}

  lemma MoveKeepsMatches(orders: map<Id, Order>, rs: map<Id, Reservation>, types: map<Id, TicketType>,
                         t: Id, sold: int, held: int)
    requires OrdersMatch(orders, rs, types) && t in types
    ensures OrdersMatch(orders, rs, types[t := Move(types[t], sold, held)])
  {}

  lemma MintKeepsTickets(tickets: map<Id, Ticket>, tickets': map<Id, Ticket>, orders: set<Id>, o: Id, ids: set<Id>)
    requires TicketsLinked(tickets, orders) && TicketsOk(tickets) && Minted(tickets, tickets', o, ids) && o in orders
    ensures TicketsLinked(tickets', orders) && TicketsOk(tickets')
  {}

  lemma MintedByService(tickets: map<Id, Ticket>, ids: seq<Id>, o: Id)
    requires Members(ids) !! tickets.Keys
    ensures Minted(tickets, WithTickets(tickets, ids, o), o, Members(ids))
  {}

  lemma FulfilRow(db: Db, p: Request)
    requires Inv(db) && Purchasable(db, p) && p.capture.Approved?
    ensures var d := Fulfil(db, p, OrderFor(db, p));
            var row, ids := d.orders[p.newOrder], Members(p.newTickets);
            && Placeable(db, p.newOrder, row) && BooksOk(row, Tally(|ids|, |ids|, 0, 0))
            && |ids| == db.reservations[p.reservation].quantity
            && Minted(db.tickets, d.tickets, p.newOrder, ids)
            && row.ticketType == db.reservations[p.reservation].ticketType
            && row.reservation == p.reservation && row.key == p.key && !row.status.Failed?
  {
    hide Placeable, BooksOk, OrderFits, Minted, Priced, UnitCharge, WithTickets, TypeFits, Distinct, Members,
         TypesLinked, TypesFit, ReservationsLinked, ReservationsFit, ReservationsOk, OrdersMatch, OrdersLinked,
         CountersExact, OrdersOk, OrdersFit, TicketsOk, TicketsLinked, RefundsFit, RefundsLinked, KeysUnique;
    var d := Fulfil(db, p, OrderFor(db, p));
    var r, row := p.reservation, d.orders[p.newOrder];
    OrderForPlaceable(db, p, row);
    NewOrderPriced(p, db.reservations[r], db.types[row.ticketType], row);
    DistinctSize(p.newTickets);
    MintedByService(db.tickets, p.newTickets, p.newOrder);
    OpeningBooks(row, |Members(p.newTickets)|);
  }

  lemma FulfilKeepsConstraints(db: Db, p: Request)
    requires Inv(db) && Purchasable(db, p) && p.capture.Approved?
    ensures Constraints(Fulfil(db, p, OrderFor(db, p)))
    ensures var d := Fulfil(db, p, OrderFor(db, p));
            OrdersMatch(d.orders, d.reservations, d.types) && TicketsOk(d.tickets)
  {
    hide Placeable, BooksOk, OrderFits, Minted, Priced, UnitCharge, WithTickets, TypeFits, Distinct, Members, NewOrder,
         TypesLinked, TypesFit, ReservationsLinked, ReservationsFit, ReservationsOk, OrdersMatch, OrdersLinked,
         CountersExact, OrdersOk, OrdersFit, TicketsOk, TicketsLinked, RefundsFit, RefundsLinked, KeysUnique;
    var d := Fulfil(db, p, OrderFor(db, p));
    var o, r, row, n := p.newOrder, p.reservation, d.orders[p.newOrder], db.reservations[p.reservation].quantity;
    FulfilRow(db, p);
    NotYetPlaced(db, o, row);
    PlacedOrderKeepsTables(db, o, row);
    MoveFits(db, p.reservation);
    MoveKeepsTypes(db.types, db.events.Keys, row.ticketType, n, -n);
    StatusWriteKeepsTables(db, r, ReservationStatus.Confirmed, d.orders);
    MoveKeepsMatches(d.orders, d.reservations, db.types, row.ticketType, n, -n);
    MintKeepsTickets(db.tickets, d.tickets, d.orders.Keys, o, Members(p.newTickets));
  }

  lemma FulfilKeepsInv(db: Db, p: Request)
    requires Inv(db) && Purchasable(db, p) && p.capture.Approved?
    ensures Inv(Fulfil(db, p, OrderFor(db, p)))
  {
    hide Placeable, BooksOk, OrderFits, Minted, Priced, UnitCharge, WithTickets, TypeFits, Distinct, Members, NewOrder,
         TypesLinked, TypesFit, ReservationsLinked, ReservationsFit, ReservationsOk, OrdersMatch, OrdersLinked,
         CountersExact, OrdersOk, OrdersFit, TicketsOk, TicketsLinked, RefundsFit, RefundsLinked, KeysUnique;
    var d := Fulfil(db, p, OrderFor(db, p));
    var o, r, row, ids := p.newOrder, p.reservation, d.orders[p.newOrder], Members(p.newTickets);
    FulfilRow(db, p);
    NotYetPlaced(db, o, row);
    FulfilKeepsConstraints(db, p);
    NewOrderKeepsBooks(db.orders, db.tickets, d.tickets, db.refunds, o, row, ids);
    FulfilSold(db.types, db.tickets, d.tickets, db.orders, db.reservations, o, row, r, ids);
    SaleConfirms(db.reservations, db.orders, r, o, row);
  }

  lemma PurchaseKeepsInv(db: Db, p: Request)
    requires Inv(db) && Admissible(db, p) && p.Purchase?
    ensures Inv(ProcessPurchase(db, p).db)
  {
    hide TypesLinked, TypesFit, ReservationsOk, OrdersMatch, OrdersLinked,
         CountersExact, OrdersOk, OrdersFit, TicketsOk, TicketsLinked, RefundsFit, RefundsLinked, KeysUnique,
         OrderFits, Fulfil, WithOrder, NewOrder;
    if p.key in db.keyIndex {
      LogKeepsInv(db, p.actor, IdempotencyCollision(db.keyIndex[p.key], p.key));
    } else if p.reservation in db.reservations && db.reservations[p.reservation].status.Active? {
      if Purchasable(db, p) {
        MoveFits(db, p.reservation);
        if p.capture.Declined? {
          DeclineKeepsInv(db, p);
        } else {
          FulfilKeepsInv(db, p);
        }
      }
    }
  }

  // ---------- issue_refund ----------

  /** A status write between two states that are not FAILED. */
  lemma StatusWriteKeepsOrders(db: Db, o: Id, row: Order)
    requires Constraints(db) && o in db.orders && row == db.orders[o].(status := row.status)
    requires OrdersMatch(db.orders, db.reservations, db.types) && ReservationsOk(db.reservations, db.orders)
    requires !row.status.Failed? && !db.orders[o].status.Failed?
    ensures var os := db.orders[o := row];
            && os.Keys == db.orders.Keys
            && OrdersLinked(os, db.events.Keys, db.reservations.Keys, db.types.Keys) && OrdersFit(os)
            && OrdersMatch(os, db.reservations, db.types) && KeysUnique(db.keyIndex, os)
  {
    hide TypesLinked, TypesFit, ReservationsLinked, ReservationsFit, RefundsFit, ReservationsOk, OrderFits, KeysUnique;
    assert db.orders[o := row].Keys == db.orders.Keys;
    OrderKnown(db, o);
    StatusKeepsFit(db.orders[o], row);
    StatusWriteKeepsKeys(db.keyIndex, db.orders, o, row);
  }

  lemma StatusKeepsFit(o: Order, row: Order)
    requires OrderFits(o) && row == o.(status := row.status)
    ensures OrderFits(row)
  {}

  lemma StatusWriteKeepsKeys(index: map<string, Id>, orders: map<Id, Order>, o: Id, row: Order)
    requires KeysUnique(index, orders) && o in orders && row.key == orders[o].key
    ensures KeysUnique(index, orders[o := row])
  {}

  lemma StatusWriteKeepsSales(rs: map<Id, Reservation>, orders: map<Id, Order>, o: Id, row: Order)
    requires ReservationsOk(rs, orders) && o in orders && row == orders[o].(status := row.status)
    requires !row.status.Failed? && !orders[o].status.Failed?
    ensures ReservationsOk(rs, orders[o := row])
  {
    forall r ensures Sales(orders[o := row], r) == Sales(orders, r) {}
  }

  lemma ReturnKeepsTickets(tickets: map<Id, Ticket>, orders: set<Id>, targets: set<Id>)
    requires TicketsLinked(tickets, orders) && TicketsOk(tickets)
    ensures var ts := MarkRefunded(tickets, targets);
            TicketsLinked(ts, orders) && TicketsOk(ts) && Returned(tickets, ts, targets)
  {}

  lemma RefundRowKeepsRefunds(fs: map<Id, Refund>, orders: set<Id>, f: Id, row: Refund)
    requires RefundsLinked(fs, orders) && RefundsFit(fs) && row.order in orders && RefundFits(row)
    ensures RefundsLinked(fs[f := row], orders) && RefundsFit(fs[f := row])
  {}

  lemma ReturnKeepsCounters(types: map<Id, TicketType>, tickets: map<Id, Ticket>, tickets': map<Id, Ticket>,
                            orders: map<Id, Order>, rs: map<Id, Reservation>, o: Id, row: Order, targets: set<Id>)
    requires CountersExact(types, tickets, orders, rs)
    requires o in orders && row.ticketType == orders[o].ticketType && row.ticketType in types
    requires targets <= ActiveTickets(tickets, o) && Returned(tickets, tickets', targets)
    ensures CountersExact(types[row.ticketType := Move(types[row.ticketType], -|targets|, 0)], tickets',
                          orders[o := row], rs)
    ensures |targets| <= types[row.ticketType].sold
  {
    hide ActualSold, ActualHeld, Returned, ActiveTickets;
    forall t ensures ActualSold(tickets', orders[o := row], t)
                  == ActualSold(tickets, orders, t) - if t == row.ticketType then |targets| else 0 {
      SoldReturn(tickets, tickets', orders, o, row, targets, t);
    }
    SoldNonNegative(tickets', orders[o := row], row.ticketType);
  }

  lemma SoldNonNegative(tickets: map<Id, Ticket>, orders: map<Id, Order>, t: Id)
    ensures ActualSold(tickets, orders, t) >= 0
  {}

  /** The books after refunding n of an order's ACTIVE tickets. */
  lemma RefundedBooks(o: Order, before: Tally, row: Order, n: int)
    requires BooksOk(o, before) && !o.status.Failed? && 1 <= n <= before.active
    requires row == o.(status := if before.active == n then OrderStatus.Refunded else OrderStatus.PartiallyRefunded)
    ensures BooksOk(row, before.(active := before.active - n, refunds := before.refunds + 1,
                                 cents := before.cents + UnitCharge(o) * n))
  {
    var unit := UnitCharge(o);
    Distribute(before.active - n, n, 0, unit);
    assert unit * (before.active - n) + unit * n == unit * before.active;
  }

  lemma RefundKeepsBooks(orders: map<Id, Order>, tickets: map<Id, Ticket>, tickets': map<Id, Ticket>,
                         refunds: map<Id, Refund>, o: Id, row: Order, targets: set<Id>, f: Id, refund: Refund)
    requires OrdersOk(orders, tickets, refunds) && o in orders && !orders[o].status.Failed?
    requires targets <= ActiveTickets(tickets, o) && targets != {} && Returned(tickets, tickets', targets)
    requires f !in refunds && refund.order == o && orders[o].quantity >= 1
    requires refund.amount == UnitCharge(orders[o]) * |targets|
    requires row == orders[o].(status := if ActiveTickets(tickets, o) - targets == {} then OrderStatus.Refunded
                                         else OrderStatus.PartiallyRefunded)
    ensures OrdersOk(orders[o := row], tickets', refunds[f := refund])
  {
    hide BooksOk, Returned, ActiveTickets, UnitCharge, TallyOf;
    var orders' := orders[o := row];
    TallyActive(tickets, refunds, o);
    AllReturned(ActiveTickets(tickets, o), targets);
    forall i | i in orders' ensures BooksOk(orders'[i], TallyOf(tickets', refunds[f := refund], i)) {
      RefundTally(tickets, tickets', refunds, o, targets, f, refund, i);
      if i == o {
        RefundedBooks(orders[o], TallyOf(tickets, refunds, o), row, |targets|);
      }
    }
  }

  lemma TallyActive(tickets: map<Id, Ticket>, refunds: map<Id, Refund>, o: Id)
    ensures TallyOf(tickets, refunds, o).active == |ActiveTickets(tickets, o)|
  {}

  lemma AllReturned(active: set<Id>, targets: set<Id>)
    requires targets <= active && targets != {}
    ensures 1 <= |targets| <= |active|
    ensures active - targets == {} <==> |active| == |targets|
  {
    SubsetSize(targets, active);
  }

  /** The guards a successful refund has passed, except the counter's constraint. */
  predicate Refundable(db: Db, f: Request) {
    && f.IssueRefund? && f.gateway.Approved? && f.newRefund !in db.refunds
    && f.order in db.orders && !db.orders[f.order].status.Failed? && db.orders[f.order].quantity >= 1
    && RefundTargets(db, f) != {}
    && 0 < UnitCharge(db.orders[f.order]) * |RefundTargets(db, f)| <= MAX_INT
  }

  lemma RefundMoveFits(db: Db, f: Request)
    requires Inv(db) && Refundable(db, f)
    ensures var t := db.orders[f.order].ticketType;
            t in db.types && TypeFits(Move(db.types[t], -|RefundTargets(db, f)|, 0))
  {
    hide OrdersOk, OrdersMatch, ReservationsOk, UnitCharge, KeysUnique, MarkRefunded, Returned, ActiveTickets,
         CountersExact, OrdersFit, TicketsOk, TicketsLinked, RefundsFit, RefundsLinked;
    TargetsActive(db, f);
    var o, targets := f.order, RefundTargets(db, f);
    ReturnKeepsTickets(db.tickets, db.orders.Keys, targets);
    ReturnKeepsCounters(db.types, db.tickets, MarkRefunded(db.tickets, targets), db.orders, db.reservations,
                        o, db.orders[o], targets);
  }

  lemma RefundingKeepsInv(db: Db, f: Request)
    requires Inv(db) && Refundable(db, f)
    ensures Inv(Refunding(db, f, RefundTargets(db, f)))
  {
    hide UnitCharge, MarkRefunded, Returned, RefundFits, TypeFits, ActiveTickets,
         TypesLinked, TypesFit, ReservationsLinked, ReservationsFit, ReservationsOk, OrdersMatch, OrdersLinked,
         CountersExact, OrdersOk, OrdersFit, TicketsOk, TicketsLinked, RefundsFit, RefundsLinked, KeysUnique;
    var targets := RefundTargets(db, f);
    var d := Refunding(db, f, targets);
    var o, row, refund := f.order, d.orders[f.order], d.refunds[f.newRefund];
    OrderKnown(db, o);
    TargetsActive(db, f);
    RefundMoveFits(db, f);
    MoveKeepsTypes(db.types, db.events.Keys, row.ticketType, -|targets|, 0);
    StatusWriteKeepsOrders(db, o, row);
    StatusWriteKeepsSales(db.reservations, db.orders, o, row);
    MoveKeepsMatches(d.orders, db.reservations, db.types, row.ticketType, -|targets|, 0);
    ReturnKeepsTickets(db.tickets, db.orders.Keys, targets);
    AmountFits(refund);
    RefundRowKeepsRefunds(db.refunds, db.orders.Keys, f.newRefund, refund);
    ReturnKeepsCounters(db.types, db.tickets, d.tickets, db.orders, db.reservations, o, row, targets);
    RefundKeepsBooks(db.orders, db.tickets, d.tickets, db.refunds, o, row, targets, f.newRefund, refund);
  }

  lemma AmountFits(r: Refund)
    requires 0 < r.amount <= MAX_INT
    ensures RefundFits(r)
  {}

  lemma TargetsActive(db: Db, f: Request)
    requires f.IssueRefund?
    ensures RefundTargets(db, f) <= ActiveTickets(db.tickets, f.order)
  {}

  lemma RefundOrderKeepsInv(db: Db, f: Request)
    requires Inv(db) && Admissible(db, f) && f.IssueRefund?
    ensures Inv(RefundOrder(db, f).db)
  {
    hide RefundTargets, UnitCharge, TypesLinked, TypesFit, ReservationsOk, OrdersMatch, TypeFits,
         CountersExact, OrdersOk, TicketsOk, TicketsLinked, RefundsFit, RefundsLinked, KeysUnique, Refunding;
    if MayRefund(db, f) && Refundable(db, f) {
      RefundMoveFits(db, f);
      RefundingKeepsInv(db, f);
    }
  }

  // ---------- charges ----------

  lemma NeverNegative(db: Db, o: Id, n: nat)
    requires Constraints(db) && o in db.orders && db.orders[o].quantity >= 1
    ensures UnitCharge(db.orders[o]) * n >= 0
  {
    hide Constraints, UnitCharge, OrderFits;
    OrderKnown(db, o);
    ChargeNonNegative(db.orders[o]);
  }

  lemma BooksOf(db: Db, o: Id)
    requires Inv(db) && o in db.orders
    ensures Constraints(db) && BooksOk(db.orders[o], TallyOf(db.tickets, db.refunds, o))
  {
    hide Constraints, CountersExact, OrdersMatch, ReservationsOk, TicketsOk, BooksOk, TallyOf;
  }

  lemma QuotientNonNegative(a: int, n: int)
    requires a >= 0 && n >= 1
    ensures a / n >= 0
  {
    var q, r := a / n, a % n;
    if q <= -1 {
      Scale(-q, n);
    }
  }

  lemma ChargeNonNegative(o: Order)
    requires OrderFits(o) && o.quantity >= 1
    ensures UnitCharge(o) >= 0
  {
    QuotientNonNegative(o.fees, o.quantity);
    QuotientNonNegative(o.tax, o.quantity);
  }

  // ---------- every operation, every run ----------

  lemma PauseKeepsInv(db: Db, e: Id, paused: bool)
    requires Inv(db) && e in db.events
    ensures Inv(db.(events := db.events[e := db.events[e].(salesPaused := paused)]))
  {
    hide TypesLinked, TypesFit, ReservationsLinked, ReservationsFit, ReservationsOk, OrdersMatch, OrdersLinked,
         CountersExact, OrdersOk, OrdersFit, TicketsOk, TicketsLinked, RefundsFit, RefundsLinked, KeysUnique;
    assert db.events[e := db.events[e].(salesPaused := paused)].Keys == db.events.Keys;
  }

  lemma ApplyKeepsInv(db: Db, q: Request)
    requires Inv(db) && Admissible(db, q)
    ensures Inv(Apply(db, q).db)
  {
    hide Inv, Constraints, CreateReservation, CancelReservation, ProcessPurchase, RefundOrder;
    match q
    case Create(_, _, _, _, _) => CreateKeepsInv(db, q);
    case Cancel(_, _) => CancelKeepsInv(db, q);
    case Purchase(_, _, _, _, _, _, _, _, _) => PurchaseKeepsInv(db, q);
    case IssueRefund(_, _, _, _, _, _) => RefundOrderKeepsInv(db, q);
    case Sweep(now, rows) => ExpireRowsKeepsInv(db, now, rows);
    case SetPaused(e, paused) => PauseKeepsInv(db, e, paused);
  }
}

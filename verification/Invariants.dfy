/** The inventory and money invariant of the database, and how it depends on the tables. */
module Invariants {
  import opened Sums
  import opened Schema

  /** Zero drift: the stored counters are the derived counts. */
  ghost predicate CountersExact(
    types: map<Id, TicketType>, tickets: map<Id, Ticket>, orders: map<Id, Order>, rs: map<Id, Reservation>)
  {
    forall t | t in types :: types[t].sold == ActualSold(tickets, orders, t) && types[t].held == ActualHeld(rs, t)
  }

  /** What the ticket and refund tables say about one order. */
  datatype Tally = Tally(tickets: int, active: int, refunds: int, cents: int)

  function TallyOf(tickets: map<Id, Ticket>, refunds: map<Id, Refund>, o: Id): Tally {
    Tally(|OrderTickets(tickets, o)|, |ActiveTickets(tickets, o)|, |RefundsOf(refunds, o)|, RefundedCents(refunds, o))
  }

  /** Every ticket of the order costs the same, in price, fee and tax. */
  predicate Priced(o: Order) {
    && o.quantity >= 1
    && o.total == o.unitPrice * o.quantity
    && o.fees == o.fees / o.quantity * o.quantity
    && o.tax == o.tax / o.quantity * o.quantity
  }

  /** The snapshot an order keeps of the reservation it was placed for. */
  predicate Matches(o: Order, rs: map<Id, Reservation>, types: map<Id, TicketType>) {
    && o.reservation in rs && o.ticketType in types
    && o.quantity == rs[o.reservation].quantity
    && o.ticketType == rs[o.reservation].ticketType
    && o.event == types[o.ticketType].event
  }

  /** An order's status follows from its tickets. */
  predicate StatusFits(o: Order, n: Tally) {
    match o.status
    case Processing => false
    case Failed => n.tickets == 0
    case Confirmed => n.tickets == o.quantity && n.active == o.quantity
    case PartiallyRefunded => n.tickets == o.quantity && 0 < n.active < o.quantity
    case Refunded => n.tickets == o.quantity && n.active == 0
  }

  /** Captured minus refunded is the charge of the tickets still ACTIVE. */
  predicate Balanced(o: Order, n: Tally) {
    && o.quantity >= 1
    && n.active <= n.tickets
    && n.refunds + n.active <= n.tickets
    && o.captured == (if o.status.Failed? then 0 else o.total + o.fees + o.tax)
    && o.captured - n.cents == UnitCharge(o) * n.active
  }

  ghost predicate BooksOk(o: Order, n: Tally) {
    Priced(o) && StatusFits(o, n) && Balanced(o, n)
  }

  ghost predicate OrdersOk(orders: map<Id, Order>, tickets: map<Id, Ticket>, refunds: map<Id, Refund>) {
    forall o | o in orders :: BooksOk(orders[o], TallyOf(tickets, refunds, o))
  }

  ghost predicate OrdersMatch(orders: map<Id, Order>, rs: map<Id, Reservation>, types: map<Id, TicketType>) {
    forall o | o in orders :: Matches(orders[o], rs, types)
  }

  /** The orders of a reservation that were not declined. */
  function Sales(orders: map<Id, Order>, r: Id): set<Id> {
    set o | o in orders && orders[o].reservation == r && !orders[o].status.Failed?
  }

  /** CONFIRMED exactly when the reservation has its one order that was not declined. */
  ghost predicate ReservationsOk(rs: map<Id, Reservation>, orders: map<Id, Order>) {
    forall r | r in rs :: |Sales(orders, r)| == if rs[r].status.Confirmed? then 1 else 0
  }

  /** No service cancels a ticket. */
  ghost predicate TicketsOk(tickets: map<Id, Ticket>) {
    forall t | t in tickets :: !tickets[t].status.Cancelled?
  }

  ghost predicate Inv(db: Db) {
    && Constraints(db)
    && CountersExact(db.types, db.tickets, db.orders, db.reservations)
    && OrdersOk(db.orders, db.tickets, db.refunds)
    && OrdersMatch(db.orders, db.reservations, db.types)
    && ReservationsOk(db.reservations, db.orders)
    && TicketsOk(db.tickets)
  }

  // ---------- how `held` follows the reservations ----------

  function HeldIn(rs: map<Id, Reservation>, r: Id): int {
    if r in rs then Held(rs[r]) else 0
  }

  /** Writing one reservation changes the held count of its type by the change of its hold. */
  lemma HeldPoint(rs: map<Id, Reservation>, r: Id, row: Reservation, t: Id)
    requires r in rs ==> rs[r].ticketType == row.ticketType
    ensures ActualHeld(rs[r := row], t)
         == ActualHeld(rs, t) + if t == row.ticketType then Held(row) - HeldIn(rs, r) else 0
  {
    TotalPoint(rs.Keys, HeldWeight(rs, t), HeldWeight(rs[r := row], t), r);
    assert rs[r := row].Keys == rs.Keys + {r};
  }

  /** Each ACTIVE reservation is part of the held count of its type. */
  lemma HeldCovers(rs: map<Id, Reservation>, r: Id)
    requires ReservationsFit(rs) && r in rs
    ensures Held(rs[r]) <= ActualHeld(rs, rs[r].ticketType)
  {
    var f := HeldWeight(rs, rs[r].ticketType);
    TotalBounds(rs.Keys, f);
    assert f(r) == Held(rs[r]);
  }

  lemma HeldNonNegative(rs: map<Id, Reservation>, t: Id)
    requires ReservationsFit(rs)
    ensures ActualHeld(rs, t) >= 0
  {
    TotalBounds(rs.Keys, HeldWeight(rs, t));
  }

  /** The counters stay exact when one hold and the `held` of its type change together. */
  lemma HoldKeepsCounters(types: map<Id, TicketType>, tickets: map<Id, Ticket>, orders: map<Id, Order>,
                          rs: map<Id, Reservation>, r: Id, row: Reservation)
    requires CountersExact(types, tickets, orders, rs) && row.ticketType in types
    requires r in rs ==> rs[r].ticketType == row.ticketType
    ensures var delta := Held(row) - HeldIn(rs, r);
            CountersExact(types[row.ticketType := Move(types[row.ticketType], 0, delta)], tickets, orders, rs[r := row])
  {
    var delta := Held(row) - HeldIn(rs, r);
    var types' := types[row.ticketType := Move(types[row.ticketType], 0, delta)];
    forall t | t in types'
      ensures types'[t].sold == ActualSold(tickets, orders, t) && types'[t].held == ActualHeld(rs[r := row], t)
    {
      HeldPoint(rs, r, row, t);
    }
  }

  // ---------- how `sold` follows the tickets ----------

  /** `after` is `before` with new ACTIVE tickets of order o. */
  predicate Minted(before: map<Id, Ticket>, after: map<Id, Ticket>, o: Id, ids: set<Id>) {
    && ids !! before.Keys && after.Keys == before.Keys + ids
    && (forall i | i in after :: after[i] == if i in ids then Ticket(o, TicketStatus.Active) else before[i])
  }

  /** `after` is `before` with the targets refunded. */
  predicate Returned(before: map<Id, Ticket>, after: map<Id, Ticket>, targets: set<Id>) {
    && after.Keys == before.Keys
    && (forall i | i in before :: after[i].order == before[i].order
          && after[i].status == if i in targets then TicketStatus.Refunded else before[i].status)
  }

  lemma SoldFrame(tickets: map<Id, Ticket>, orders: map<Id, Order>, orders': map<Id, Order>, t: Id)
    requires TicketsLinked(tickets, orders.Keys)
    requires forall o | o in orders :: o in orders' && orders'[o].ticketType == orders[o].ticketType
    ensures ActualSold(tickets, orders', t) == ActualSold(tickets, orders, t)
  {
    assert SoldTickets(tickets, orders', t) == SoldTickets(tickets, orders, t);
  }

  lemma SoldMintSet(tickets: map<Id, Ticket>, tickets': map<Id, Ticket>, orders: map<Id, Order>,
                    o: Id, row: Order, ids: set<Id>, t: Id)
    requires TicketsLinked(tickets, orders.Keys) && o !in orders && Minted(tickets, tickets', o, ids)
    ensures SoldTickets(tickets', orders[o := row], t)
         == SoldTickets(tickets, orders, t) + if t == row.ticketType then ids else {}
  {}

  /** Minting the tickets of a new order raises the sold count of its type only. */
  lemma SoldMint(tickets: map<Id, Ticket>, tickets': map<Id, Ticket>, orders: map<Id, Order>,
                 o: Id, row: Order, ids: set<Id>, t: Id)
    requires TicketsLinked(tickets, orders.Keys) && o !in orders && Minted(tickets, tickets', o, ids)
    ensures ActualSold(tickets', orders[o := row], t)
         == ActualSold(tickets, orders, t) + if t == row.ticketType then |ids| else 0
  {
    SoldMintSet(tickets, tickets', orders, o, row, ids, t);
    UnionSize(SoldTickets(tickets', orders[o := row], t), SoldTickets(tickets, orders, t),
              if t == row.ticketType then ids else {});
  }

  lemma SoldReturnSet(tickets: map<Id, Ticket>, tickets': map<Id, Ticket>, orders: map<Id, Order>,
                      o: Id, row: Order, targets: set<Id>, t: Id)
    requires o in orders && row.ticketType == orders[o].ticketType
    requires targets <= ActiveTickets(tickets, o) && Returned(tickets, tickets', targets)
    ensures SoldTickets(tickets', orders[o := row], t)
         == SoldTickets(tickets, orders, t) - if t == row.ticketType then targets else {}
    ensures t == row.ticketType ==> targets <= SoldTickets(tickets, orders, t)
  {}

  /** Refunding ACTIVE tickets of one order lowers the sold count of its type only. */
  lemma SoldReturn(tickets: map<Id, Ticket>, tickets': map<Id, Ticket>, orders: map<Id, Order>,
                   o: Id, row: Order, targets: set<Id>, t: Id)
    requires o in orders && row.ticketType == orders[o].ticketType
    requires targets <= ActiveTickets(tickets, o) && Returned(tickets, tickets', targets)
    ensures ActualSold(tickets', orders[o := row], t)
         == ActualSold(tickets, orders, t) - if t == row.ticketType then |targets| else 0
  {
    SoldReturnSet(tickets, tickets', orders, o, row, targets, t);
    SubsetSize(if t == row.ticketType then targets else {}, SoldTickets(tickets, orders, t));
  }

  // ---------- how the books of an order follow the tables ----------

  lemma NothingYet(tickets: map<Id, Ticket>, refunds: map<Id, Refund>, orders: set<Id>, o: Id)
    requires TicketsLinked(tickets, orders) && RefundsLinked(refunds, orders) && o !in orders
    ensures TallyOf(tickets, refunds, o) == Tally(0, 0, 0, 0)
  {
    TotalZero(refunds.Keys, RefundWeight(refunds, o));
    assert OrderTickets(tickets, o) == {} && ActiveTickets(tickets, o) == {} && RefundsOf(refunds, o) == {};
  }

  lemma MintSets(tickets: map<Id, Ticket>, tickets': map<Id, Ticket>, orders: set<Id>, o: Id, ids: set<Id>, i: Id)
    requires TicketsLinked(tickets, orders) && o !in orders && Minted(tickets, tickets', o, ids)
    ensures OrderTickets(tickets', i) == (if i == o then ids else OrderTickets(tickets, i))
    ensures ActiveTickets(tickets', i) == (if i == o then ids else ActiveTickets(tickets, i))
  {}

  /** Minting opens the books of the new order and leaves the others alone. */
  lemma MintTally(tickets: map<Id, Ticket>, tickets': map<Id, Ticket>, refunds: map<Id, Refund>,
                  orders: set<Id>, o: Id, ids: set<Id>, i: Id)
    requires TicketsLinked(tickets, orders) && RefundsLinked(refunds, orders)
    requires o !in orders && Minted(tickets, tickets', o, ids)
    ensures TallyOf(tickets', refunds, i)
         == if i == o then Tally(|ids|, |ids|, 0, 0) else TallyOf(tickets, refunds, i)
  {
    MintSets(tickets, tickets', orders, o, ids, i);
    NothingYet(tickets, refunds, orders, o);
  }

  lemma ReturnSets(tickets: map<Id, Ticket>, tickets': map<Id, Ticket>, o: Id, targets: set<Id>, i: Id)
    requires targets <= ActiveTickets(tickets, o) && Returned(tickets, tickets', targets)
    ensures OrderTickets(tickets', i) == OrderTickets(tickets, i)
    ensures ActiveTickets(tickets', i) == ActiveTickets(tickets, i) - if i == o then targets else {}
  {}

  lemma RefundRows(fs: map<Id, Refund>, f: Id, row: Refund, i: Id)
    requires f !in fs
    ensures |RefundsOf(fs[f := row], i)| == |RefundsOf(fs, i)| + if i == row.order then 1 else 0
  {
    assert RefundsOf(fs[f := row], i) == RefundsOf(fs, i) + if i == row.order then {f} else {};
  }

  lemma RefundCents(fs: map<Id, Refund>, f: Id, row: Refund, i: Id)
    requires f !in fs
    ensures RefundedCents(fs[f := row], i) == RefundedCents(fs, i) + if i == row.order then row.amount else 0
  {
    TotalPoint(fs.Keys, RefundWeight(fs, i), RefundWeight(fs[f := row], i), f);
    assert fs[f := row].Keys == fs.Keys + {f};
  }

  /** A refund moves tickets and money of its own order only. */
  lemma RefundTally(tickets: map<Id, Ticket>, tickets': map<Id, Ticket>, fs: map<Id, Refund>,
                    o: Id, targets: set<Id>, f: Id, row: Refund, i: Id)
    requires targets <= ActiveTickets(tickets, o) && Returned(tickets, tickets', targets)
    requires f !in fs && row.order == o
    ensures var n := TallyOf(tickets, fs, i);
            TallyOf(tickets', fs[f := row], i) ==
            if i == o then n.(active := n.active - |targets|, refunds := n.refunds + 1, cents := n.cents + row.amount)
            else n
  {
    hide ActiveTickets, OrderTickets, RefundsOf, RefundedCents, Returned;
    ReturnSets(tickets, tickets', o, targets, i);
    RefundRows(fs, f, row, i);
    RefundCents(fs, f, row, i);
    if i == o {
      SubsetSize(targets, ActiveTickets(tickets, o));
    }
  }
}

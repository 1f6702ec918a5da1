/** What one operation does in full, and what a later one undoes. */
module RoundTrips {
  import opened Sums
  import opened Schema
  import opened Services
  import opened Invariants
  import opened Preservation
  import opened Runs
  import opened Purchases
  import opened RefundBatches

  // ---------- holds ----------

  /** The guards of a hold: an ACTIVE type of an event on sale with enough tickets left. */
  predicate WillHold(db: Db, c: Request)
    requires c.Create? && Constraints(db)
  {
    && c.ticketType in db.types && db.types[c.ticketType].status.Active?
    && !db.events[db.types[c.ticketType].event].salesPaused
    && Available(db.types[c.ticketType]) >= c.quantity
    && c.newReservation !in db.reservations
  }

  /** The tables apart from one row of each. */
  predicate OnlyRow<V(==)>(before: map<Id, V>, after: map<Id, V>, k: Id) {
    k in after && after.Keys == before.Keys + {k} && forall j | j in before && j != k :: after[j] == before[j]
  }

  /** A hold succeeds exactly under its guards; then `quantity` tickets leave the available ones
      for `holdMinutes` minutes and one log row says so. Otherwise nothing happens. */
  lemma HoldExactlyWhen(db: Db, c: Request)
    requires Inv(db) && Constraints(db) && c.Create? && c.quantity >= 1
    ensures CreateReservation(db, c).reply.ReservationReply? <==> WillHold(db, c)
    ensures !WillHold(db, c) ==> CreateReservation(db, c).db == db
    ensures WillHold(db, c) ==>
      var d, t, r := CreateReservation(db, c).db, c.ticketType, c.newReservation;
      && CreateReservation(db, c).reply == ReservationReply(r)
      && OnlyRow(db.types, d.types, t) && Available(d.types[t]) == Available(db.types[t]) - c.quantity
      && d.types[t].sold == db.types[t].sold && d.types[t].capacity == db.types[t].capacity
      && OnlyRow(db.reservations, d.reservations, r) && d.reservations[r].user == c.user.id
      && d.reservations[r].ticketType == t && d.reservations[r].quantity == c.quantity
      && d.reservations[r].expiresAt - c.now == db.events[db.types[t].event].holdMinutes * 60_000_000
      && !Stale(d, d.reservations[r].expiresAt, r) && Stale(d, d.reservations[r].expiresAt + 1, r)
      && d == db.(types := d.types, reservations := d.reservations, audit := d.audit)
      && d.audit == db.audit + [AuditRow(c.user.email, InventoryHeld(t, c.quantity, r))]
  {
    hide Inv, Constraints;
  }

  /** The owner or staff may cancel; a second cancel changes nothing and answers the same. */
  lemma CancelIsIdempotent(db: Db, c: Request)
    requires Inv(db) && Constraints(db) && c.Cancel?
    ensures var out := CancelReservation(db, c);
            && Constraints(out.db) && CancelReservation(out.db, c) == Outcome(out.db, out.reply)
            && (out.reply.ReservationReply? <==>
                  c.reservation in db.reservations
                  && (db.reservations[c.reservation].user == c.user.id || c.user.staff))
  {
    hide Inv, Constraints, Releasable;
    CancelKeepsInv(db, c);
    InvBasics(CancelReservation(db, c).db);
    if c.reservation in db.reservations && db.reservations[c.reservation].status.Active? {
      ActiveIsReleasable(db, c.reservation);
    }
  }

  /** A permitted cancel of an ACTIVE reservation always goes through and makes exactly its
      quantity available again; any other cancel leaves the database alone. */
  lemma CancelReleases(db: Db, c: Request)
    requires c.Cancel? && Constraints(db) && Inv(db)
    ensures var d := CancelReservation(db, c).db;
      if c.reservation in db.reservations && db.reservations[c.reservation].status.Active?
         && (db.reservations[c.reservation].user == c.user.id || c.user.staff) then
        var row, t := db.reservations[c.reservation], db.reservations[c.reservation].ticketType;
        && t in db.types && OnlyRow(db.types, d.types, t) && d.types[t].sold == db.types[t].sold
        && Available(d.types[t]) == Available(db.types[t]) + row.quantity
        && OnlyRow(db.reservations, d.reservations, c.reservation)
        && d.reservations[c.reservation] == row.(status := ReservationStatus.Cancelled)
        && d == db.(types := d.types, reservations := d.reservations, audit := d.audit)
        && d.audit == db.audit + [AuditRow(c.user.email, HoldCancelled(c.reservation, row.quantity))]
      else d == db
  {
    hide Inv, Constraints, Releasable;
    if c.reservation in db.reservations {
      TypeKnown(db, c.reservation);
      if db.reservations[c.reservation].status.Active? {
        ActiveIsReleasable(db, c.reservation);
      }
    }
  }

  lemma MoveBack(types: map<Id, TicketType>, t: Id, n: int)
    requires t in types
    ensures var up := types[t := Move(types[t], 0, n)]; up[t := Move(up[t], 0, -n)] == types
  {}

  /** Cancelling a fresh hold gives every counter back. */
  lemma HoldThenCancel(db: Db, c: Request, user: User)
    requires c.Create? && c.quantity >= 1 && (user.id == c.user.id || user.staff)
    requires Constraints(db) && WillHold(db, c) && Inv(db)
    ensures var d := CreateReservation(db, c).db;
            && Constraints(d)
            && var e := CancelReservation(d, Cancel(c.newReservation, user));
               && e.reply == ReservationReply(c.newReservation) && e.db.types == db.types
               && OnlyRow(db.reservations, e.db.reservations, c.newReservation)
               && e.db.reservations[c.newReservation].status.Cancelled?
  {
    hide Inv, Constraints, Releasable;
    CreateKeepsInv(db, c);
    var d := CreateReservation(db, c).db;
    InvBasics(d);
    ActiveIsReleasable(d, c.newReservation);
    MoveBack(db.types, c.ticketType, c.quantity);
  }

  // ---------- sales ----------

  /** A sale turns exactly the held tickets into sold ones, each an ACTIVE ticket of one new
      order that is charged the ticket type's price, fee and tax per ticket. */
  lemma SaleInFull(db: Db, p: Request)
    requires Inv(db) && Constraints(db) && p.Purchase? && Admissible(db, p) && WillSell(db, p)
    ensures var d, o := ProcessPurchase(db, p).db, p.newOrder;
            var row, t := db.reservations[p.reservation], db.reservations[p.reservation].ticketType;
            && t in db.types && OnlyRow(db.types, d.types, t)
            && d.types[t] == Move(db.types[t], row.quantity, -row.quantity)
            && Available(d.types[t]) == Available(db.types[t])
            && OnlyRow(db.reservations, d.reservations, p.reservation)
            && d.reservations[p.reservation] == row.(status := ReservationStatus.Confirmed)
            && Minted(db.tickets, d.tickets, o, Members(p.newTickets)) && |Members(p.newTickets)| == row.quantity
            && o !in db.orders && OnlyRow(db.orders, d.orders, o) && d.keyIndex == db.keyIndex[p.key := o]
            && d.events == db.events && d.refunds == db.refunds
            && d.audit == db.audit + [AuditRow(p.actor,
                                               InventorySold(t, -row.quantity, row.quantity, o, d.orders[o].total))]
  {
    hide Inv, Constraints, OrderFits, TypeFits, WithTickets, Distinct, Members, Minted, Matches;
    SellsExactlyWhen(db, p);
    TypeKnown(db, p.reservation);
    FulfilRow(db, p);
  }

  /** The new order: whose it is, what it charges, and that exactly that was captured. */
  lemma SaleOrder(db: Db, p: Request)
    requires Inv(db) && Constraints(db) && p.Purchase? && Admissible(db, p) && WillSell(db, p)
    ensures p.newOrder in ProcessPurchase(db, p).db.orders && p.reservation in db.reservations
    ensures var o, row := ProcessPurchase(db, p).db.orders[p.newOrder], db.reservations[p.reservation];
            && row.ticketType in db.types
            && var t := db.types[row.ticketType];
            && o.status.Confirmed? && o.user == row.user && o.reservation == p.reservation && o.key == p.key
            && o.event == t.event && o.ticketType == row.ticketType && o.createdAt == p.createdAt
            && o.unitPrice == t.price && o.quantity == row.quantity >= 1
            && UnitCharge(o) == t.price + t.fee + t.tax
            && o.captured == (t.price + t.fee + t.tax) * row.quantity
            && o.captured == o.total + o.fees + o.tax && o.total == t.price * row.quantity
            && o.fees == t.fee * row.quantity && o.tax == t.tax * row.quantity
            && o.paymentId == if p.capture.paymentId == "" then "unknown" else p.capture.paymentId
  {
    hide Inv, Constraints, OrderFits, TypeFits, WithTickets, UnitCharge;
    SellsExactlyWhen(db, p);
    TypeKnown(db, p.reservation);
    var row := db.reservations[p.reservation];
    NewOrderPriced(p, row, db.types[row.ticketType], ProcessPurchase(db, p).db.orders[p.newOrder]);
  }

  /** Buying a hold and refunding the whole order frees exactly what cancelling the hold would
      have freed, and returns exactly what was captured. */
  lemma SaleThenFullRefund(db: Db, p: Request, f: Request)
    requires Inv(db) && Constraints(db) && p.Purchase? && Admissible(db, p) && WillSell(db, p)
    requires f.IssueRefund? && f.order == p.newOrder && f.ticketIds == []
    requires Constraints(ProcessPurchase(db, p).db) && WillRefund(ProcessPurchase(db, p).db, f)
    requires p.reservation in db.reservations
    ensures var d := ProcessPurchase(db, p).db; var e := RefundOrder(d, f).db; var r := p.reservation;
            && e.types == Release(db, r, ReservationStatus.Cancelled, "", HoldCancelled(r, 0)).types
            && p.newOrder in d.orders && RefundedCents(e.refunds, p.newOrder) == d.orders[p.newOrder].captured
            && ActiveTickets(e.tickets, p.newOrder) == {}
  {
    hide Inv, Constraints, ProcessPurchase, RefundOrder, UnitCharge, ActiveTickets, RefundedCents, WillSell, WillRefund,
         Admissible, Minted, Members, MarkRefunded;
    var d := ProcessPurchase(db, p).db;
    PurchaseKeepsInv(db, p);
    SaleInFull(db, p);
    SaleOrder(db, p);
    SoldTicketsOfSale(db, d, p);
    WholeOrder(d, f);
    NothingRefundedYet(db, p.newOrder);
    OneRefundedSet(d, f);
    StillActive(d.tickets, p.newOrder, ActiveTickets(d.tickets, p.newOrder));
    SellAndReturn(db.types, db.reservations[p.reservation].ticketType, db.reservations[p.reservation].quantity,
                  d.types);
  }

  lemma WholeOrder(d: Db, f: Request)
    requires f.IssueRefund? && f.ticketIds == []
    ensures RefundTargets(d, f) == ActiveTickets(d.tickets, f.order)
  {}

  lemma SoldTicketsOfSale(db: Db, d: Db, p: Request)
    requires Constraints(db) && p.Purchase? && p.newOrder !in db.orders
    requires Minted(db.tickets, d.tickets, p.newOrder, Members(p.newTickets))
    ensures ActiveTickets(d.tickets, p.newOrder) == Members(p.newTickets)
  {
    hide Members;
    MintSets(db.tickets, d.tickets, db.orders.Keys, p.newOrder, Members(p.newTickets), p.newOrder);
  }

  lemma NothingRefundedYet(db: Db, o: Id)
    requires Constraints(db) && o !in db.orders
    ensures RefundedCents(db.refunds, o) == 0
  {
    hide RefundedCents;
    NothingYet(db.tickets, db.refunds, db.orders.Keys, o);
    assert TallyOf(db.tickets, db.refunds, o).cents == RefundedCents(db.refunds, o);
  }

  /** Held becomes sold and sold becomes free. */
  lemma SellAndReturn(types: map<Id, TicketType>, t: Id, n: int, sold: map<Id, TicketType>)
    requires t in types && OnlyRow(types, sold, t)
    requires sold[t] == Move(types[t], n, -n)
    ensures sold[t := Move(sold[t], -n, 0)] == types[t := Move(types[t], 0, -n)]
  {}
}

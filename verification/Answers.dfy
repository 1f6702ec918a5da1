/** What every service answers, and exactly when, in terms a caller could check beforehand. */
module Answers {
  import opened Schema
  import opened Services
  import opened Invariants
  import opened Preservation
  import opened Runs
  import opened RefundBatches
  import opened Purchases

  // ---------- create_reservation, cancel_reservation ----------

  /** Each refusal of a hold has its own guard, and leaves nothing. */
  lemma HoldAnswers(db: Db, c: Request)
    requires c.Create? && Constraints(db)
    ensures var out, t := CreateReservation(db, c), c.ticketType;
            var offered := t in db.types && db.types[t].status.Active?;
            var onSale := offered && !db.events[db.types[t].event].salesPaused;
            var enough := onSale && c.quantity <= db.types[t].capacity - db.types[t].sold - db.types[t].held;
            && (out.reply == Raised(NotFound) <==> !offered)
            && (out.reply == Raised(SalesPaused) <==> offered && !onSale)
            && (out.reply == Raised(InsufficientCapacity) <==> onSale && !enough)
            && (out.reply == Raised(DatabaseError) <==> enough && c.newReservation in db.reservations)
            && (out.reply == ReservationReply(c.newReservation) <==> enough && c.newReservation !in db.reservations)
            && (out.reply.Raised? ==> out.db == db)
  {
    hide Constraints;
    if c.ticketType in db.types {
      EventKnown(db, c.ticketType);
    }
  }

  /** A cancel fails only for an unknown reservation or a stranger. */
  lemma CancelAnswers(db: Db, c: Request)
    requires c.Cancel? && Constraints(db) && Inv(db)
    ensures var out, r := CancelReservation(db, c), c.reservation;
            var known := r in db.reservations;
            var theirs := known && (db.reservations[r].user == c.user.id || c.user.staff);
            && (out.reply == Raised(NotFound) <==> !known)
            && (out.reply == Raised(AccessDenied) <==> known && !theirs)
            && (out.reply == ReservationReply(r) <==> theirs)
            && (out.reply.Raised? ==> out.db == db)
  {
    hide Inv, Constraints, Releasable, Release;
    if c.reservation in db.reservations && db.reservations[c.reservation].status.Active? {
      ActiveIsReleasable(db, c.reservation);
    }
  }

  // ---------- process_purchase ----------

  /** The key has at most 255 characters and every amount is a non-negative 32-bit number. */
  predicate ColumnsFit(key: string, n: int, t: TicketType) {
    && |key| <= 255 && 0 <= n <= 2147483647
    && 0 <= t.price * n <= 2147483647 && 0 <= t.fee * n <= 2147483647 && 0 <= t.tax * n <= 2147483647
  }

  lemma ColumnsMean(p: Request, row: Reservation, t: TicketType)
    requires p.Purchase? && row.quantity >= 1 && TypeFits(t)
    ensures OrderFits(NewOrder(p, row, t)) <==> ColumnsFit(p.key, row.quantity, t)
  {}

  /** No two of the new ids are equal and none is taken. */
  predicate IdsFree(db: Db, ids: seq<Id>) {
    && (forall i, j | 0 <= i < |ids| && 0 <= j < |ids| && i != j :: ids[i] != ids[j])
    && forall i | 0 <= i < |ids| :: ids[i] !in db.tickets
  }

  lemma IdsMean(db: Db, ids: seq<Id>)
    ensures Mintable(db, ids) <==> IdsFree(db, ids)
  {
    assert forall i | 0 <= i < |ids| :: ids[i] in set t | t in ids;
  }

  lemma TypeRowFits(db: Db, t: Id)
    requires Constraints(db) && t in db.types
    ensures TypeFits(db.types[t])
  {}

  /** Each answer of a purchase has its own guard. `first` says that its first look found the
      key unused; `live` that event, hold and deadline let it pass; `clear` that its row can be
      inserted. */
  lemma PurchaseAnswers(db: Db, p: Request)
    requires p.Purchase? && Constraints(db) && Inv(db)
    ensures var reply, known := ProcessPurchase(db, p).reply, p.reservation in db.reservations;
            var first := known && (p.key !in db.keyIndex || p.late);
            var row := if known then db.reservations[p.reservation]
                       else Reservation(0, 0, 0, ReservationStatus.Active, 0);
            var onSale := first && !db.events[db.types[row.ticketType].event].salesPaused;
            var live := onSale && row.status.Active? && p.now <= row.expiresAt;
            var fits := live && ColumnsFit(p.key, row.quantity, db.types[row.ticketType]);
            var clear := fits && p.key !in db.keyIndex && p.newOrder !in db.orders;
            && (reply == Raised(NotFound) <==> !known || (fits && p.key !in db.keyIndex && p.newOrder in db.orders))
            && (reply == Raised(SalesPaused) <==> first && !onSale)
            && (reply == Raised(ReservationNotActive) <==> onSale && !row.status.Active?)
            && (reply == Raised(ReservationExpired) <==> onSale && row.status.Active? && row.expiresAt < p.now)
            && (reply == Raised(PaymentFailed) <==> clear && p.capture.Declined?)
            && (reply == Raised(DatabaseError) <==>
                  (live && !fits) || (clear && p.capture.Approved? && !IdsFree(db, p.newTickets)))
            && (p.key in db.keyIndex ==>
                  (reply == OrderReply(db.keyIndex[p.key]) <==> known && (!p.late || fits)))
            && (p.key !in db.keyIndex ==>
                  (reply == OrderReply(p.newOrder) <==> clear && p.capture.Approved? && IdsFree(db, p.newTickets)))
  {
    hide Inv, Constraints, OrderFits, TypeFits, Mintable, IdsFree, ColumnsFit, Fulfil, WithOrder, NewOrder;
    IdsMean(db, p.newTickets);
    if p.reservation in db.reservations {
      var row := db.reservations[p.reservation];
      TypeKnown(db, p.reservation);
      TypeRowFits(db, row.ticketType);
      ColumnsMean(p, row, db.types[row.ticketType]);
      if row.status.Active? {
        MoveFits(db, p.reservation);
      }
    }
  }

  /** The order a declined payment leaves behind. */
  function DeclinedOrder(p: Request, row: Reservation, t: TicketType): Order
    requires p.Purchase?
  {
    Order(row.user, t.event, p.reservation, row.ticketType, p.key, row.quantity, t.price,
          t.price * row.quantity, t.fee * row.quantity, t.tax * row.quantity, OrderStatus.Failed, "", 0, p.createdAt)
  }

  /** A payment is refused with PaymentFailed exactly when everything else was in order and the
      provider declined; then the database gains that FAILED order under its key, and nothing
      else changes. */
  lemma DeclineIsRecorded(db: Db, p: Request)
    requires p.Purchase? && Constraints(db) && Inv(db)
    ensures var out := ProcessPurchase(db, p);
      if p.reservation in db.reservations && p.key !in db.keyIndex && p.newOrder !in db.orders && p.capture.Declined?
         && db.reservations[p.reservation].status.Active? && p.now <= db.reservations[p.reservation].expiresAt
         && !db.events[db.types[db.reservations[p.reservation].ticketType].event].salesPaused
         && ColumnsFit(p.key, db.reservations[p.reservation].quantity,
                       db.types[db.reservations[p.reservation].ticketType])
      then
        var row := db.reservations[p.reservation];
        && out.reply == Raised(PaymentFailed)
        && out.db == db.(orders := db.orders[p.newOrder := DeclinedOrder(p, row, db.types[row.ticketType])],
                         keyIndex := db.keyIndex[p.key := p.newOrder])
      else out.reply != Raised(PaymentFailed)
  {
    hide Inv, Constraints, OrderFits, TypeFits, Mintable, ColumnsFit, Fulfil;
    if p.reservation in db.reservations {
      var row := db.reservations[p.reservation];
      TypeKnown(db, p.reservation);
      TypeRowFits(db, row.ticketType);
      ColumnsMean(p, row, db.types[row.ticketType]);
    }
  }

  /** The guards of a sale with nothing abbreviated. */
  lemma SaleGuards(db: Db, p: Request)
    requires p.Purchase? && Constraints(db)
    ensures WillSell(db, p) <==>
      && p.reservation in db.reservations && p.key !in db.keyIndex && p.newOrder !in db.orders && p.capture.Approved?
      && db.reservations[p.reservation].status.Active? && p.now <= db.reservations[p.reservation].expiresAt
      && !db.events[db.types[db.reservations[p.reservation].ticketType].event].salesPaused
      && ColumnsFit(p.key, db.reservations[p.reservation].quantity, db.types[db.reservations[p.reservation].ticketType])
      && IdsFree(db, p.newTickets)
  {
    hide Constraints, OrderFits, TypeFits, Mintable, IdsFree, ColumnsFit;
    IdsMean(db, p.newTickets);
    if p.reservation in db.reservations {
      var row := db.reservations[p.reservation];
      TypeKnown(db, p.reservation);
      TypeRowFits(db, row.ticketType);
      ColumnsMean(p, row, db.types[row.ticketType]);
    }
  }

  // ---------- issue_refund ----------

  /** The ACTIVE tickets of the order that the ids name; no ids name them all. */
  function Named(db: Db, o: Id, ids: seq<Id>): set<Id> {
    set t | t in db.tickets && db.tickets[t].order == o && db.tickets[t].status.Active? && (ids == [] || t in ids)
  }

  lemma NamedAreTargets(db: Db, f: Request)
    requires f.IssueRefund?
    ensures RefundTargets(db, f) == Named(db, f.order, f.ticketIds)
  {}

  /** What refunding n tickets of an order pays back. */
  function PaysBack(o: Order, n: nat): int {
    if o.quantity >= 1 then (o.unitPrice + o.fees / o.quantity + o.tax / o.quantity) * n else 0
  }

  /** A request without a requester, by staff or by the owner of the order. */
  predicate Heard(db: Db, f: Request)
    requires f.IssueRefund?
  {
    && f.order in db.orders
    && (f.requester.None? || f.requester.value.staff || f.requester.value.id == db.orders[f.order].user)
  }

  /** The amount is positive, fits 32 bits, and the refund's id is unused. */
  predicate Payable(db: Db, f: Request)
    requires f.IssueRefund? && f.order in db.orders
  {
    && 0 < PaysBack(db.orders[f.order], |Named(db, f.order, f.ticketIds)|) <= 2147483647
    && f.newRefund !in db.refunds
  }

  /** Each answer of a refund has its own guard. To anybody who is not heard the order does not
      exist. */
  lemma RefundAnswers(db: Db, f: Request)
    requires f.IssueRefund? && Constraints(db) && Inv(db)
    ensures var out, heard := RefundOrder(db, f), Heard(db, f);
            var some := heard && Named(db, f.order, f.ticketIds) != {};
            var agreed := some && f.gateway.Approved?;
            var payable := agreed && Payable(db, f);
            && (out.reply == Raised(NotFound) <==> !heard)
            && (out.reply == Raised(InvalidRefund) <==> heard && !some)
            && (out.reply == Raised(PaymentRefundFailed) <==> some && f.gateway.Declined?)
            && (out.reply == Raised(DatabaseError) <==> agreed && !payable)
            && (out.reply == RefundReply(f.newRefund) <==> payable)
            && (out.reply.Raised? ==> out.db == db)
  {
    hide Inv, Constraints, TypeFits, RefundTargets, Named, ActiveTickets, Refunding;
    NamedAreTargets(db, f);
    RefundSucceedsIff(db, f);
    if f.order in db.orders && RefundTargets(db, f) != {} {
      TargetsActive(db, f);
      ActiveMeansRefundable(db, f.order);
      OrderKnown(db, f.order);
      NeverNegative(db, f.order, |RefundTargets(db, f)|);
    }
  }

  /** A successful refund marks exactly the named tickets, gives exactly their number back to the
      ticket type, and the order is REFUNDED iff no ACTIVE ticket is left. */
  lemma RefundDoes(db: Db, f: Request)
    requires f.IssueRefund? && f.order in db.orders && Constraints(db) && Inv(db)
    requires RefundOrder(db, f).reply == RefundReply(f.newRefund)
    ensures db.orders[f.order].ticketType in db.types
    ensures var d, tickets, tt := RefundOrder(db, f).db, Named(db, f.order, f.ticketIds), db.orders[f.order].ticketType;
            && d.tickets.Keys == db.tickets.Keys
            && (forall t | t in db.tickets :: d.tickets[t].order == db.tickets[t].order && d.tickets[t].status ==
                  if t in tickets then TicketStatus.Refunded else db.tickets[t].status)
            && d.types == db.types[tt := db.types[tt].(sold := db.types[tt].sold - |tickets|)]
            && f.order in d.orders && d.orders == db.orders[f.order := d.orders[f.order]]
            && d.orders[f.order] == db.orders[f.order].(status :=
                 if Named(db, f.order, []) == tickets then OrderStatus.Refunded else OrderStatus.PartiallyRefunded)
            && d.reservations == db.reservations && d.events == db.events && d.keyIndex == db.keyIndex
  {
    hide Inv, Constraints, RefundOrder, UnitCharge, WillRefund, PaymentId, OnlyMember;
    InvBasics(db);
    RefundSucceedsIff(db, f);
    NamedAreTargets(db, f);
    assert Named(db, f.order, []) == ActiveTickets(db.tickets, f.order);
  }

  // ---------- the pause switch ----------

  /** A toggle sets one flag of one event. */
  lemma ToggleIsExact(db: Db, e: Id, paused: bool)
    requires e in db.events && Constraints(db)
    ensures var d := Apply(db, SetPaused(e, paused)).db;
            && e in d.events && d.events[e] == Event(db.events[e].title, db.events[e].holdMinutes, paused)
            && d == db.(events := db.events[e := d.events[e]])
    ensures Apply(db, SetPaused(e, paused)).reply == Done
  {}

  /** Resuming an event that was on sale undoes its pause: every request is answered as before. */
  lemma ResumeUndoesPause(db: Db, e: Id)
    requires e in db.events && !db.events[e].salesPaused && Constraints(db) && Inv(db)
    ensures var d := Apply(db, SetPaused(e, true)).db;
            e in d.events && d.events[e].salesPaused && Constraints(d) && Apply(d, SetPaused(e, false)).db == db
  {
    hide Inv, Constraints;
    PauseKeepsInv(db, e, true);
    InvBasics(Apply(db, SetPaused(e, true)).db);
  }
}

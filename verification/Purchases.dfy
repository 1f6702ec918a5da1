/** Exactly when a purchase sells, and what its two failures, decline and expiry, leave possible. */
module Purchases {
  import opened Sums
  import opened Schema
  import opened Services
  import opened Invariants
  import opened Preservation
  import opened Runs

  /** The guards a caller could check: a live hold of an event on sale, an unused key, a key
      and amounts that fit their columns, unused row ids, and a provider that captures the payment. */
  predicate WillSell(db: Db, p: Request)
    requires p.Purchase? && Constraints(db)
  {
    && p.reservation in db.reservations
    && var row := db.reservations[p.reservation];
    && row.status.Active? && p.now <= row.expiresAt && !db.events[db.types[row.ticketType].event].salesPaused
    && p.key !in db.keyIndex && p.newOrder !in db.orders && Mintable(db, p.newTickets)
    && OrderFits(OrderFor(db, p)) && p.capture.Approved?
  }

  /** Tickets are sold exactly then: no counter's constraint stands in the way, and any other
      purchase leaves inventory, holds and tickets alone. */
  lemma SellsExactlyWhen(db: Db, p: Request)
    requires Inv(db) && Constraints(db) && p.Purchase? && Admissible(db, p)
    ensures WillSell(db, p) ==>
              ProcessPurchase(db, p) == Outcome(Fulfil(db, p, OrderFor(db, p)), OrderReply(p.newOrder))
              && ProcessPurchase(db, p).db.reservations[p.reservation].status.Confirmed?
    ensures !WillSell(db, p) ==>
              var d := ProcessPurchase(db, p).db;
              d.types == db.types && d.reservations == db.reservations && d.tickets == db.tickets
  {
    hide Inv, Constraints, OrderFits, TypeFits, Mintable, WithTickets;
    if p.reservation in db.reservations && db.reservations[p.reservation].status.Active? {
      MoveFits(db, p.reservation);
    }
  }

  /** A decline keeps the hold: the same reservation can still be bought with a fresh key,
      exactly as if the declined attempt had not been made. */
  lemma FreshKeyAfterDecline(db: Db, p: Request, retry: Request)
    requires Inv(db) && Constraints(db) && p.Purchase? && Admissible(db, p)
    requires ProcessPurchase(db, p).reply == Raised(PaymentFailed)
    requires retry.Purchase? && retry.key != p.key && retry.newOrder != p.newOrder
    ensures var d := ProcessPurchase(db, p).db; Constraints(d) && (WillSell(d, retry) <==> WillSell(db, retry))
  {
    hide Inv, Constraints, OrderFits, TypeFits, Mintable;
    PurchaseKeepsInv(db, p);
    InvBasics(ProcessPurchase(db, p).db);
    if p.reservation in db.reservations && db.reservations[p.reservation].status.Active? {
      MoveFits(db, p.reservation);
    }
    DeclineKeepsTickets(db, p, retry.newTickets);
  }

  lemma DeclineKeepsTickets(db: Db, p: Request, ids: seq<Id>)
    requires Constraints(db) && p.Purchase? && ProcessPurchase(db, p).reply == Raised(PaymentFailed)
    ensures Mintable(ProcessPurchase(db, p).db, ids) <==> Mintable(db, ids)
  {
    hide Constraints, OrderFits, TypeFits, Distinct, Members;
  }

  /** A key keeps its order over every later run: a purchase that looks it up gets that order,
      and if it was declined it stays FAILED. */
  lemma SpentKeyKeepsItsOrder(db: Db, log: seq<Entry>, p: Request)
    requires Inv(db) && Replay(db, log).Some? && p.Purchase? && p.key in db.keyIndex && !p.late
    requires p.reservation in db.reservations
    ensures var d := Replay(db, log).value; var o := db.keyIndex[p.key];
            && Constraints(d) && ProcessPurchase(d, p).reply == OrderReply(o)
            && o in db.orders && o in d.orders
            && (db.orders[o].status.Failed? ==> d.orders[o].status.Failed?)
  {
    hide Inv, Constraints, TypesEvolve, TicketsEvolve, ReservationsEvolve, OrderFits, TypeFits, Mintable, Replay;
    var d := Replay(db, log).value;
    RunEvolves(db, log);
    InvBasics(d);
    InvBasics(db);
    KeyKnown(db, p.key);
    StillReserved(db, d, p.reservation);
  }

  lemma StillReserved(db: Db, d: Db, r: Id)
    requires ReservationsEvolve(db.reservations, d.reservations) && r in db.reservations
    ensures r in d.reservations
  {}

  /** A purchase comes too late exactly when its key is not found used, sales are on, and the
      ACTIVE hold's deadline is strictly past. The EXPIRED mark it writes is rolled back with
      everything else: the hold stays, and any sweep from that moment on can find it. */
  lemma ExpiredHoldAwaitsSweep(db: Db, p: Request, later: int)
    requires Constraints(db) && p.Purchase? && p.now <= later
    ensures var out := ProcessPurchase(db, p);
      if p.reservation in db.reservations && (p.key !in db.keyIndex || p.late)
         && !db.events[db.types[db.reservations[p.reservation].ticketType].event].salesPaused
         && db.reservations[p.reservation].status.Active? && db.reservations[p.reservation].expiresAt < p.now
      then out == Outcome(db, Raised(ReservationExpired)) && Stale(out.db, later, p.reservation)
      else out.reply != Raised(ReservationExpired)
  {
    hide Constraints, OrderFits, TypeFits, Mintable;
  }
}

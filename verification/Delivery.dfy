/** Purchases delivered again and again: what aborts, what a duplicate gets, and how often
    one idempotency key can move inventory. */
module Delivery {
  import opened Schema
  import opened Services
  import opened Invariants
  import opened Preservation
  import opened Runs

  // ---------- aborts ----------

  /** An exception leaves no trace, except that a decline records its FAILED order. */
  lemma AbortRestores(db: Db, q: Request)
    requires Constraints(db) && Admissible(db, q) && Apply(db, q).reply.Raised?
    ensures var d := Apply(db, q).db;
            if Apply(db, q).reply != Raised(PaymentFailed) then d == db
            else
              && q.Purchase? && q.reservation in db.reservations && db.reservations[q.reservation].status.Active?
              && q.newOrder !in db.orders && q.key !in db.keyIndex
              && q.newOrder in d.orders && d.orders[q.newOrder].status.Failed?
              && d.orders[q.newOrder].key == q.key && d.orders[q.newOrder].captured == 0
              && d == db.(orders := db.orders[q.newOrder := d.orders[q.newOrder]],
                          keyIndex := db.keyIndex[q.key := q.newOrder])
  {
    hide Constraints, OrderFits, TypeFits, RefundTargets, UnitCharge, Mintable, Selection;
  }

  // ---------- one key ----------

  lemma PurchaseReplies(db: Db, p: Request)
    requires Constraints(db) && p.Purchase?
    ensures var out := ProcessPurchase(db, p);
            && (out.reply.OrderReply? || out.reply.Raised?)
            && (out.reply.Raised? && !out.reply.error.PaymentFailed? ==> out.db == db)
            && (out.reply.OrderReply? ==> p.key in out.db.keyIndex && out.db.keyIndex[p.key] == out.reply.order)
  {
    hide Constraints, OrderFits, TypeFits, Mintable;
  }

  /** The guards between the first look at the key and the INSERT that the unique index stops. */
  predicate ReachesInsert(db: Db, p: Request)
    requires Constraints(db) && p.Purchase? && p.reservation in db.reservations
  {
    var row := db.reservations[p.reservation];
    && !db.events[db.types[row.ticketType].event].salesPaused && row.status.Active? && p.now <= row.expiresAt
    && OrderFits(OrderFor(db, p))
  }

  /** A request for a key that has an order gets that order, and leaves only a log row, exactly
      when it found the key at its first look or would get as far as the INSERT. Otherwise, a
      duplicate that looked too early, it raises and leaves nothing. */
  lemma DuplicateGetsTheOrder(db: Db, p: Request)
    requires Constraints(db) && p.Purchase? && p.key in db.keyIndex && p.reservation in db.reservations
    ensures ProcessPurchase(db, p).reply == OrderReply(db.keyIndex[p.key]) <==> !p.late || ReachesInsert(db, p)
    ensures if !p.late || ReachesInsert(db, p) then ProcessPurchase(db, p) == Collision(db, p)
            else ProcessPurchase(db, p).reply.Raised? && ProcessPurchase(db, p).db == db
  {
    hide Constraints, OrderFits, TypeFits;
  }

  /** Keys are not scoped to a reservation: an answered purchase gets an order for the reservation
      it asked for exactly when its key was unused or already stood for that reservation. When the
      key was used, nothing but the log changes and the hold stays unsold. */
  lemma WhoseOrder(db: Db, p: Request)
    requires Constraints(db) && p.Purchase? && ProcessPurchase(db, p).reply.OrderReply?
    ensures p.key in db.keyIndex ==> db.keyIndex[p.key] in db.orders
    ensures var d, o := ProcessPurchase(db, p).db, ProcessPurchase(db, p).reply.order;
            o in d.orders && (d.orders[o].reservation == p.reservation <==>
              (p.key in db.keyIndex ==> db.orders[db.keyIndex[p.key]].reservation == p.reservation))
    ensures p.key in db.keyIndex ==>
              ProcessPurchase(db, p).db ==
              db.(audit := db.audit + [AuditRow(p.actor, IdempotencyCollision(db.keyIndex[p.key], p.key))])
  {
    hide Constraints, OrderFits, TypeFits, Mintable, WithTickets;
    if p.key in db.keyIndex {
      KeyKnown(db, p.key);
    }
  }

  predicate ForKey(q: Request, k: string) {
    q.Purchase? && q.key == k
  }

  /** The purchases with key k in the log after which some counter differed. */
  ghost function MovesFor(db: Db, log: seq<Entry>, k: string): nat
    requires Inv(db)
  {
    if log == [] then 0
    else
      var n := |log| - 1;
      MovesFor(db, log[..n], k) +
      match Replay(db, log[..n])
      case None => 0
      case Some(d) =>
        if ForKey(log[n].request, k) && Extend(d, log[n]).Some? && Extend(d, log[n]).value.types != d.types then 1
        else 0
  }

  /** The orders that carry the key. */
  function OrdersWithKey(db: Db, k: string): set<Id> {
    set o | o in db.orders && db.orders[o].key == k
  }

  lemma AtMostOneOrder(db: Db, k: string)
    requires Inv(db)
    ensures |OrdersWithKey(db, k)| == if k in db.keyIndex then 1 else 0
  {
    hide CountersExact, OrdersOk, OrdersMatch, ReservationsOk, TicketsOk;
    if k in db.keyIndex {
      assert OrdersWithKey(db, k) == {db.keyIndex[k]};
    } else {
      assert OrdersWithKey(db, k) == {};
    }
  }

  lemma FulfilTakesTheKey(db: Db, p: Request)
    requires Constraints(db) && p.Purchase? && p.capture.Approved? && p.reservation in db.reservations
    requires db.reservations[p.reservation].ticketType in db.types
    ensures p.key in Fulfil(db, p, OrderFor(db, p)).keyIndex
  {
    hide Constraints, WithTickets;
  }

  /** Moving inventory under a key takes the key. */
  lemma MovingTakesTheKey(db: Db, p: Request)
    requires Constraints(db) && p.Purchase? && ProcessPurchase(db, p).db.types != db.types
    ensures p.key !in db.keyIndex && p.key in ProcessPurchase(db, p).db.keyIndex
  {
    hide Constraints, OrderFits, TypeFits, Mintable, Fulfil, NewOrder;
    if p.reservation in db.reservations && p.capture.Approved? {
      TypeKnown(db, p.reservation);
      FulfilTakesTheKey(db, p);
    }
  }

  /** However often a key is delivered, from whatever state and between whatever other
      requests: one order at most, at most one movement of inventory, none once the order
      exists, and every caller that is given an order is given the same one. */
  lemma {:induction false} KeyMovesOnce(db: Db, log: seq<Entry>, k: string)
    requires Inv(db) && Replay(db, log).Some?
    ensures var d := Replay(db, log).value;
            && MovesFor(db, log, k) + (if k in db.keyIndex then 1 else 0) <= (if k in d.keyIndex then 1 else 0)
            && |OrdersWithKey(d, k)| <= 1
            && (forall e | e in log && ForKey(e.request, k) && e.reply.OrderReply? ::
                  k in d.keyIndex && e.reply.order == d.keyIndex[k])
  {
    hide Inv, Constraints, Evolves, Apply, Admissible, OrdersWithKey;
    var d := Replay(db, log).value;
    AtMostOneOrder(d, k);
    if log != [] {
      var n := |log| - 1;
      var before := Replay(db, log[..n]).value;
      KeyMovesOnce(db, log[..n], k);
      ApplyEvolves(before, log[n].request);
      KeysPersist(before, d);
      StepMoves(before, log[n], k);
    }
  }

  lemma StepMoves(db: Db, e: Entry, k: string)
    requires Inv(db) && Extend(db, e).Some?
    ensures ForKey(e.request, k) && Extend(db, e).value.types != db.types ==>
              k !in db.keyIndex && k in Extend(db, e).value.keyIndex
    ensures ForKey(e.request, k) && e.reply.OrderReply? ==>
              k in Extend(db, e).value.keyIndex && Extend(db, e).value.keyIndex[k] == e.reply.order
  {
    hide Inv, Constraints, ProcessPurchase, CreateReservation, CancelReservation, RefundOrder;
    InvBasics(db);
    if ForKey(e.request, k) {
      PurchaseReplies(db, e.request);
      if Extend(db, e).value.types != db.types {
        MovingTakesTheKey(db, e.request);
      }
    }
  }
}

/** The service layer as it runs: tables updated in place, transactions rolled back by
    restoring the state they began with. Each method is proved against its atomic service. */
module Storage {
  import opened Sums
  import opened Schema
  import opened Services
  import opened Invariants
  import opened Runs
  import opened Delivery
  import opened Jobs
  import opened Reconciliation

  datatype Insertion = Inserted | OutOfRange | UniqueViolation

  class Store {
    var events: map<Id, Event>
    var types: map<Id, TicketType>
    var reservations: map<Id, Reservation>
    var orders: map<Id, Order>
    var keyIndex: map<string, Id>
    var tickets: map<Id, Ticket>
    var refunds: map<Id, Refund>
    var audit: seq<AuditRow>

    function Snapshot(): Db
      reads this
    {
      Db(events, types, reservations, orders, keyIndex, tickets, refunds, audit)
    }

    constructor (db: Db)
      ensures Snapshot() == db
    {
      events, types, reservations, orders := db.events, db.types, db.reservations, db.orders;
      keyIndex, tickets, refunds, audit := db.keyIndex, db.tickets, db.refunds, db.audit;
    }

    /** ROLLBACK, or ROLLBACK TO SAVEPOINT. */
    method Restore(saved: Db)
      modifies this
      ensures Snapshot() == saved
    {
      events, types, reservations, orders := saved.events, saved.types, saved.reservations, saved.orders;
      keyIndex, tickets, refunds, audit := saved.keyIndex, saved.tickets, saved.refunds, saved.audit;
    }

    /** AuditLog.record: the log is only ever appended to. */
    method Record(actor: string, change: Change)
      modifies this`audit
      ensures audit == old(audit) + [AuditRow(actor, change)]
    {
      audit := audit + [AuditRow(actor, change)];
    }

    method CreateReservation(user: User, ticketType: Id, quantity: int, now: int, newReservation: Id)
      returns (reply: Reply)
      requires Constraints(Snapshot()) && quantity >= 1
      modifies this
      ensures Outcome(Snapshot(), reply) ==
              Services.CreateReservation(old(Snapshot()), Create(user, ticketType, quantity, now, newReservation))
    {
      hide Constraints;
      var saved := Snapshot();
      if ticketType !in types || !types[ticketType].status.Active? {
        return Raised(NotFound);
      }
      var t := types[ticketType];
      EventKnown(saved, ticketType);
      if events[t.event].salesPaused {
        return Raised(SalesPaused);
      }
      var available := t.capacity - t.sold - t.held;
      if available < quantity {
        return Raised(InsufficientCapacity);
      }
      types := types[ticketType := t.(held := t.held + quantity)];
      var expiresAt := now + events[t.event].holdMinutes * MINUTE;
      if newReservation in reservations {
        Restore(saved);
        return Raised(DatabaseError);
      }
      reservations := reservations[newReservation :=
        Reservation(user.id, ticketType, quantity, ReservationStatus.Active, expiresAt)];
      Record(user.email, InventoryHeld(ticketType, quantity, newReservation));
      reply := ReservationReply(newReservation);
    }

    method CancelReservation(reservation: Id, user: User) returns (reply: Reply)
      requires Constraints(Snapshot())
      modifies this
      ensures Outcome(Snapshot(), reply) == Services.CancelReservation(old(Snapshot()), Cancel(reservation, user))
    {
      hide Constraints;
      if reservation !in reservations {
        return Raised(NotFound);
      }
      var row := reservations[reservation];
      if row.user != user.id && !user.staff {
        return Raised(AccessDenied);
      }
      if row.status.Active? {
        TypeKnown(Snapshot(), reservation);
        var t := Move(types[row.ticketType], 0, -row.quantity);
        if !TypeFits(t) {
          return Raised(DatabaseError);
        }
        types := types[row.ticketType := t];
        reservations := reservations[reservation := row.(status := ReservationStatus.Cancelled)];
        Record(user.email, HoldCancelled(reservation, row.quantity));
      }
      reply := ReservationReply(reservation);
    }

    /** INSERT INTO order: column ranges first, then the primary key and the unique index. */
    method InsertOrder(id: Id, row: Order) returns (result: Insertion)
      modifies this`orders, this`keyIndex
      ensures result.OutOfRange? <==> !OrderFits(row)
      ensures result.UniqueViolation? <==> OrderFits(row) && (id in old(orders) || row.key in old(keyIndex))
      ensures result.Inserted? ==> orders == old(orders)[id := row] && keyIndex == old(keyIndex)[row.key := id]
      ensures !result.Inserted? ==> orders == old(orders) && keyIndex == old(keyIndex)
    {
      if !OrderFits(row) {
        result := OutOfRange;
      } else if id in orders || row.key in keyIndex {
        result := UniqueViolation;
      } else {
        orders, keyIndex := orders[id := row], keyIndex[row.key := id];
        result := Inserted;
      }
    }

    /** One ticket row per unit bought; false when a primary key is taken. */
    method CreateTickets(ids: seq<Id>, order: Id) returns (ok: bool)
      modifies this`tickets
      ensures ok <==> Distinct(ids) && Members(ids) !! old(tickets).Keys
      ensures ok ==> tickets == WithTickets(old(tickets), ids, order)
    {
      var i := 0;
      assert WithTickets(tickets, [], order) == tickets;
      while i < |ids|
        invariant 0 <= i <= |ids|
        invariant Distinct(ids[..i]) && Members(ids[..i]) !! old(tickets).Keys
        invariant tickets == WithTickets(old(tickets), ids[..i], order)
      {
        assert ids[i] in ids[..i + 1] && ids[..i + 1] == ids[..i] + [ids[i]];
        if ids[i] in tickets {
          assert ids[i] in Members(ids);
          return false;
        }
        WithOneMore(old(tickets), ids[..i], ids[i], order);
        tickets := tickets[ids[i] := Ticket(order, TicketStatus.Active)];
        i := i + 1;
      }
      assert ids[..i] == ids;
      ok := true;
    }

    /** Both outcomes of the capture: a decline fails the order that was just inserted; after a
        payment held becomes sold, the tickets are created, the order and its reservation are
        confirmed, unless a constraint aborts the transaction. */
    method SettlePayment(reservation: Id, row: Reservation, newOrder: Id, order: Order, newTickets: seq<Id>,
                         actor: string, capture: Gateway)
      returns (paymentError: bool, aborted: bool)
      requires reservation in reservations && row == reservations[reservation] && row.ticketType in types
      requires newOrder in orders && orders[newOrder] == order
      modifies this
      ensures paymentError == capture.Declined?
      ensures aborted <==>
                capture.Approved? && !(TypeFits(Move(old(types)[row.ticketType], row.quantity, -row.quantity))
                                       && Mintable(old(Snapshot()), newTickets))
      ensures paymentError ==>
        Snapshot() == old(Snapshot()).(orders := old(orders)[newOrder := order.(status := OrderStatus.Failed)])
      ensures !paymentError && !aborted ==>
        var s := old(Snapshot());
        var paid := order.(status := OrderStatus.Confirmed, paymentId := PaymentId(capture),
                           captured := AmountDue(order));
        Snapshot() == Db(s.events,
                         s.types[row.ticketType := Move(s.types[row.ticketType], row.quantity, -row.quantity)],
                         s.reservations[reservation := row.(status := ReservationStatus.Confirmed)],
                         s.orders[newOrder := paid], s.keyIndex,
                         WithTickets(s.tickets, newTickets, newOrder), s.refunds,
                         s.audit + [AuditRow(actor, InventorySold(row.ticketType, -row.quantity, row.quantity,
                                                                  newOrder, order.total))])
    {
      hide WithTickets, TypeFits, Distinct, Members, PaymentId, AmountDue;
      if capture.Declined? {
        orders := orders[newOrder := order.(status := OrderStatus.Failed)];
        return true, false;
      }
      var moved := Move(types[row.ticketType], row.quantity, -row.quantity);
      if !TypeFits(moved) {
        return false, true;
      }
      types := types[row.ticketType := moved];
      var created := CreateTickets(newTickets, newOrder);
      if !created {
        return false, true;
      }
      orders := orders[newOrder := order.(status := OrderStatus.Confirmed, paymentId := PaymentId(capture),
                                          captured := AmountDue(order))];
      reservations := reservations[reservation := row.(status := ReservationStatus.Confirmed)];
      Record(actor, InventorySold(row.ticketType, -row.quantity, row.quantity, newOrder, order.total));
      return false, false;
    }

    method ProcessPurchase(reservation: Id, key: string, actor: string, now: int, late: bool, newOrder: Id,
                           createdAt: int, capture: Gateway, newTickets: seq<Id>)
      returns (reply: Reply)
      requires Constraints(Snapshot())
      requires reservation in reservations ==> |newTickets| == reservations[reservation].quantity
      modifies this
      ensures Outcome(Snapshot(), reply) ==
              Services.ProcessPurchase(old(Snapshot()), Purchase(reservation, key, actor, now, late, newOrder,
                                                                 createdAt, capture, newTickets))
    {
      hide Constraints, WithTickets, OrderFits, TypeFits, Distinct, Members, AmountDue, PaymentId, Fulfil;
      ghost var p := Purchase(reservation, key, actor, now, late, newOrder, createdAt, capture, newTickets);
      var saved := Snapshot();
      if reservation !in reservations {
        return Raised(NotFound);
      }
      var row := reservations[reservation];
      if !late && key in keyIndex {
        Record(actor, IdempotencyCollision(keyIndex[key], key));
        return OrderReply(keyIndex[key]);
      }
      TypeKnown(saved, reservation);
      var t := types[row.ticketType];
      EventKnown(saved, row.ticketType);
      if events[t.event].salesPaused {
        return Raised(SalesPaused);
      }
      if !row.status.Active? {
        return Raised(ReservationNotActive);
      }
      if row.expiresAt < now {
        reservations := reservations[reservation := row.(status := ReservationStatus.Expired)];
        Restore(saved);
        return Raised(ReservationExpired);
      }
      var order := Order(row.user, t.event, reservation, row.ticketType, key, row.quantity, t.price,
                         t.price * row.quantity, t.fee * row.quantity, t.tax * row.quantity,
                         OrderStatus.Processing, "", 0, createdAt);
      var inserted := InsertOrder(newOrder, order);
      match inserted {
        case OutOfRange =>
          Restore(saved);
          return Raised(DatabaseError);
        case UniqueViolation =>
          Restore(saved);
          if key !in keyIndex {
            return Raised(NotFound);
          }
          Record(actor, IdempotencyCollision(keyIndex[key], key));
          return OrderReply(keyIndex[key]);
        case Inserted =>
          OverwriteRow(saved.orders, newOrder, order, order.(status := OrderStatus.Failed));
          OverwriteRow(saved.orders, newOrder, order,
                       if capture.Declined? then order
                       else order.(status := OrderStatus.Confirmed, paymentId := PaymentId(capture),
                                   captured := AmountDue(order)));
      }
      var paymentError, aborted := SettlePayment(reservation, row, newOrder, order, newTickets, actor, capture);
      if aborted {
        Restore(saved);
        return Raised(DatabaseError);
      }
      if !paymentError {
        FulfilTables(saved, p, order);
      }
      assert order == NewOrder(p, row, t);
      reply := if paymentError then Raised(PaymentFailed) else OrderReply(newOrder);
    }

    /** Any request of any other client. */
    method Serve(q: Request) returns (reply: Reply)
      requires Constraints(Snapshot()) && Admissible(Snapshot(), q)
      modifies this
      ensures Outcome(Snapshot(), reply) == Apply(old(Snapshot()), q)
    {
      hide Constraints, Services.CreateReservation, Services.CancelReservation, Services.ProcessPurchase, RefundOrder,
           Services.SweepExpired, Selection;
      match q {
        case Create(user, t, n, now, r) => reply := CreateReservation(user, t, n, now, r);
        case Cancel(r, user) => reply := CancelReservation(r, user);
        case Purchase(r, key, actor, now, late, o, at, capture, ids) =>
          reply := ProcessPurchase(r, key, actor, now, late, o, at, capture, ids);
        case IssueRefund(o, requester, ids, actor, f, gateway) =>
          reply := IssueRefund(o, requester, ids, actor, f, gateway);
        case Sweep(now, rows) => reply := SweepExpired(now, rows);
        case SetPaused(e, paused) =>
          events := events[e := events[e].(salesPaused := paused)];
          reply := Done;
      }
    }

    /** What other clients do while the job waits for its next attempt. */
    method Interlude(log: seq<Entry>)
      requires Inv(Snapshot()) && Replay(Snapshot(), log).Some?
      modifies this
      ensures Inv(Snapshot()) && Replay(old(Snapshot()), log) == Some(Snapshot())
    {
      hide Inv, Constraints, Apply, Admissible;
      var i := 0;
      while i < |log|
        invariant 0 <= i <= |log|
        invariant Inv(Snapshot()) && Replay(old(Snapshot()), log[..i]) == Some(Snapshot())
      {
        ReplaySplit(old(Snapshot()), log, i + 1);
        assert log[..i + 1][..i] == log[..i] && log[..i + 1][i] == log[i];
        InvBasics(Snapshot());
        var reply := Serve(log[i].request);
        i := i + 1;
      }
      assert log[..i] == log;
    }

    /** process_purchase_task: domain outcomes end it, anything else is retried, and after the
        last retry it is dead-lettered. Other transactions run before every attempt. */
    method ProcessPurchaseTask(reservation: Id, key: string, actor: string, attempts: seq<Attempt>)
      returns (outcome: TaskOutcome)
      requires Inv(Snapshot()) && RunTask(Snapshot(), reservation, key, actor, attempts).Some?
      requires |attempts| == 1 + MAX_RETRIES
      modifies this
      ensures RunTask(old(Snapshot()), reservation, key, actor, attempts) == Some((Snapshot(), outcome))
    {
      hide Inv, Constraints, Services.ProcessPurchase, Replay;
      var retries := 0;
      while retries <= MAX_RETRIES
        invariant 0 <= retries <= 1 + MAX_RETRIES && Inv(Snapshot())
        invariant RunTask(old(Snapshot()), reservation, key, actor, attempts)
               == RunTask(Snapshot(), reservation, key, actor, attempts[retries..])
      {
        var a := attempts[retries];
        assert attempts[retries..][0] == a && attempts[retries..][1..] == attempts[retries + 1..];
        Interlude(a.before);
        if !a.lost {
          InvBasics(Snapshot());
          PurchaseReplies(Snapshot(), AsRequest(reservation, key, actor, a));
          var reply := ProcessPurchase(reservation, key, actor, a.now, a.late, a.newOrder, a.createdAt, a.capture,
                                       a.newTickets);
          if reply.OrderReply? {
            return Completed(reply.order);
          }
          if DomainError(reply.error) {
            return NotCompleted(reply.error);
          }
        }
        retries := retries + 1;
      }
      outcome := DeadLettered;
    }

    /** The writes of an accepted refund. An error reply asks the caller to roll back. */
    method ApplyRefund(order: Id, o: Order, targets: set<Id>, newRefund: Id, refund: Refund, link: Option<Id>,
                       actor: string)
      returns (reply: Reply)
      requires order in orders && o == orders[order] && o.ticketType in types
      requires targets <= ActiveTickets(tickets, order)
      modifies this
      ensures reply == if TypeFits(Move(old(types)[o.ticketType], -|targets|, 0)) then RefundReply(newRefund)
                       else Raised(DatabaseError)
      ensures reply.RefundReply? ==>
        var s := old(Snapshot());
        var status := StatusAfter(s, order, targets);
        Snapshot() == Db(s.events, s.types[o.ticketType := Move(s.types[o.ticketType], -|targets|, 0)], s.reservations,
                         s.orders[order := o.(status := status)], s.keyIndex, MarkRefunded(s.tickets, targets),
                         s.refunds[newRefund := if link.Some? then refund.(ticket := link) else refund],
                         s.audit + [AuditRow(actor, RefundIssued(newRefund, order, refund.amount, |targets|, status))])
    {
      hide MarkRefunded, ActiveTickets, TypeFits;
      RemainingActive(tickets, order, targets);
      refunds := refunds[newRefund := refund];
      tickets := MarkRefunded(tickets, targets);
      if link.Some? {
        refunds := refunds[newRefund := refund.(ticket := link)];
      }
      var t := Move(types[o.ticketType], -|targets|, 0);
      if !TypeFits(t) {
        return Raised(DatabaseError);
      }
      types := types[o.ticketType := t];
      var remaining := ActiveTickets(tickets, order);
      var status := if remaining == {} then OrderStatus.Refunded else OrderStatus.PartiallyRefunded;
      orders := orders[order := o.(status := status)];
      Record(actor, RefundIssued(newRefund, order, refund.amount, |targets|, status));
      reply := RefundReply(newRefund);
    }

    method IssueRefund(order: Id, requester: Option<User>, ticketIds: seq<Id>, actor: string, newRefund: Id,
                       gateway: Gateway)
      returns (reply: Reply)
      requires Constraints(Snapshot())
      modifies this
      ensures Outcome(Snapshot(), reply) ==
              RefundOrder(old(Snapshot()),
                          Services.Request.IssueRefund(order, requester, ticketIds, actor, newRefund, gateway))
    {
      hide Constraints, TypeFits, RefundTargets, MarkRefunded, StatusAfter, OnlyMember, RefundOrder, Refunding,
           ActiveTickets;
      var saved := Snapshot();
      ghost var f := Services.Request.IssueRefund(order, requester, ticketIds, actor, newRefund, gateway);
      RefundOutcome(saved, f);
      if order !in orders
         || (requester.Some? && !requester.value.staff && orders[order].user != requester.value.id) {
        return Raised(NotFound);
      }
      var o := orders[order];
      OrderKnown(saved, order);
      if o.status.Refunded? || o.status.Failed? {
        return Raised(InvalidRefund);
      }
      var targets := set t | t in tickets && tickets[t].order == order && tickets[t].status.Active?
                             && (ticketIds == [] || t in ticketIds);
      SelectedTickets(saved, f, targets);
      if targets == {} {
        return Raised(InvalidRefund);
      }
      var count := |targets|;
      var amount := (o.unitPrice + o.fees / o.quantity + o.tax / o.quantity) * count;
      if gateway.Declined? {
        return Raised(PaymentRefundFailed);
      }
      var refund := Refund(order, None, amount, PaymentId(gateway));
      if !RefundFits(refund) || newRefund in refunds {
        return Raised(DatabaseError);
      }
      var link := if ticketIds != [] && count == 1 then OnlyMember(targets) else None;
      reply := ApplyRefund(order, o, targets, newRefund, refund, link, actor);
      if reply.Raised? {
        Restore(saved);
      }
    }

    /** The body of the sweep's loop; false when the counter's constraint fails. */
    method ExpireReservation(r: Id) returns (ok: bool)
      requires Constraints(Snapshot()) && r in reservations
      modifies this
      ensures ok <==> Releasable(old(Snapshot()), r)
      ensures ok ==> Snapshot() == ExpireOne(old(Snapshot()), r)
    {
      hide Constraints, TypeFits;
      var row := reservations[r];
      TypeKnown(Snapshot(), r);
      var t := Move(types[row.ticketType], 0, -row.quantity);
      if !TypeFits(t) {
        return false;
      }
      types := types[row.ticketType := t];
      reservations := reservations[r := row.(status := ReservationStatus.Expired)];
      Record("system_sweep", HoldExpired(r, row.quantity));
      ok := true;
    }

    /** `rows` is the result of the skip-locked query, in any order. */
    method SweepExpired(now: int, rows: seq<Id>) returns (reply: Reply)
      requires Constraints(Snapshot()) && Selection(Snapshot(), now, rows)
      modifies this
      ensures Outcome(Snapshot(), reply) == Services.SweepExpired(old(Snapshot()), Sweep(now, rows))
    {
      hide Constraints, Releasable, ExpireOne;
      var saved := Snapshot();
      var expired := 0;
      assert forall r | r in rows :: Stale(saved, now, r);
      while expired < |rows|
        invariant 0 <= expired <= |rows|
        invariant forall r | r in rows :: r in saved.reservations
        invariant ExpireRows(saved, rows[..expired]) == Some(Snapshot())
      {
        var r := rows[expired];
        assert rows[..expired + 1][..expired] == rows[..expired];
        var ok := ExpireReservation(r);
        if !ok {
          AbortIsFinal(saved, rows, expired + 1);
          assert rows[..|rows|] == rows;
          Restore(saved);
          return Raised(DatabaseError);
        }
        expired := expired + 1;
      }
      assert rows[..expired] == rows;
      reply := SweepReply(expired);
    }

    /** The run_reconciliation command. `done` counts the types it got through; it stops short
        only when `--fix` meets an oversold type, whose corrected counters the database rejects. */
    method RunReconciliation(rows: seq<Id>, fix: bool) returns (done: nat, drift: seq<Id>, oversell: seq<Id>)
      requires TypesFit(types) && ReservationsFit(reservations) && Distinct(rows)
      requires forall t | t in rows :: t in types
      modifies this`types
      ensures done <= |rows| && (done == |rows| <==> !fix || NoneOversold(old(Snapshot()), rows))
      ensures done < |rows| ==>
                Has(old(Snapshot()), rows[done], Oversell) && NoneOversold(old(Snapshot()), rows[..done])
      ensures Snapshot() == if fix then Repaired(old(Snapshot()), rows[..done]) else old(Snapshot())
      ensures var seen := if done < |rows| then rows[..done + 1] else rows;
              drift == Found(old(Snapshot()), seen, Drift) && oversell == Found(old(Snapshot()), seen, Oversell)
    {
      hide ActualSold, ActualHeld, TypesFit, ReservationsFit, TypeFits, Found, Corrected, NoneOversold, Distinct;
      ghost var s := Snapshot();
      var loaded := types;
      done, drift, oversell := 0, [], [];
      NothingCorrected(s);
      while done < |rows|
        invariant 0 <= done <= |rows|
        invariant drift == Found(s, rows[..done], Drift) && oversell == Found(s, rows[..done], Oversell)
        invariant fix ==> NoneOversold(s, rows[..done])
        invariant Snapshot() == if fix then Repaired(s, rows[..done]) else s
      {
        var id, t := rows[done], loaded[rows[done]];
        OneMoreRow(s, rows, done, id);
        var sold, held := ActualSold(tickets, orders, id), ActualHeld(reservations, id);
        if sold + held > t.capacity {
          oversell := oversell + [id];
        }
        if sold - t.sold != 0 || held - t.held != 0 {
          drift := drift + [id];
          if fix {
            var corrected := types[id].(sold := sold, held := held);
            if !TypeFits(corrected) {
              return;
            }
            types := types[id := corrected];
          }
        }
        done := done + 1;
      }
      assert rows[..done] == rows;
    }
  }

  // ---------- facts the methods use ----------

  lemma NothingCorrected(db: Db)
    ensures Repaired(db, []) == db && NoneOversold(db, [])
    ensures forall f :: Found(db, [], f) == []
  {
    assert Corrected(db, []) == db.types;
  }

  /** Visiting one more type: what is found, what a correction writes, when it is refused. */
  lemma OneMoreRow(db: Db, rows: seq<Id>, i: nat, t: Id)
    requires i < |rows| && t == rows[i] && Distinct(rows) && forall k | k in rows :: k in db.types
    requires TypesFit(db.types) && ReservationsFit(db.reservations)
    ensures t in Corrected(db, rows[..i]) && Corrected(db, rows[..i])[t] == db.types[t]
    ensures var fixed := db.types[t].(sold := ActualSold(db.tickets, db.orders, t),
                                      held := ActualHeld(db.reservations, t));
            && Corrected(db, rows[..i + 1]) == Corrected(db, rows[..i])[t := fixed]
            && (!Has(db, t, Drift) ==> Corrected(db, rows[..i + 1]) == Corrected(db, rows[..i]))
            && (TypeFits(fixed) <==> !Has(db, t, Oversell)) && (Has(db, t, Oversell) ==> Has(db, t, Drift))
    ensures forall f :: Found(db, rows[..i + 1], f) == Found(db, rows[..i], f) + if Has(db, t, f) then [t] else []
    ensures NoneOversold(db, rows[..i + 1]) <==> NoneOversold(db, rows[..i]) && !Has(db, t, Oversell)
    ensures Has(db, t, Oversell) ==> !NoneOversold(db, rows)
  {
    hide ActualSold, ActualHeld, TypesFit, ReservationsFit, TypeFits;
    assert rows[..i + 1] == rows[..i] + [t] && t !in rows[..i];
    CorrectionFits(db, t);
  }

  lemma FulfilTables(db: Db, p: Request, o: Order)
    requires p.Purchase? && p.capture.Approved? && Constraints(db) && p.reservation in db.reservations
    requires db.reservations[p.reservation].ticketType in db.types
    ensures var row := db.reservations[p.reservation];
            var paid := o.(status := OrderStatus.Confirmed, paymentId := PaymentId(p.capture),
                           captured := AmountDue(o));
            Fulfil(db, p, o) ==
            Db(db.events, db.types[row.ticketType := Move(db.types[row.ticketType], row.quantity, -row.quantity)],
               db.reservations[p.reservation := row.(status := ReservationStatus.Confirmed)],
               db.orders[p.newOrder := paid], db.keyIndex[o.key := p.newOrder],
               WithTickets(db.tickets, p.newTickets, p.newOrder), db.refunds,
               db.audit + [AuditRow(p.actor, InventorySold(row.ticketType, -row.quantity, row.quantity, p.newOrder,
                                                           o.total))])
  {
    hide Constraints, WithTickets, AmountDue, PaymentId, Move;
  }

  lemma WithOneMore(tickets: map<Id, Ticket>, ids: seq<Id>, id: Id, o: Id)
    ensures WithTickets(tickets, ids + [id], o) == WithTickets(tickets, ids, o)[id := Ticket(o, TicketStatus.Active)]
  {
    assert Members(ids + [id]) == Members(ids) + {id};
  }

  lemma SelectedTickets(db: Db, f: Request, targets: set<Id>)
    requires f.IssueRefund?
    requires targets == set t | t in db.tickets && db.tickets[t].order == f.order && db.tickets[t].status.Active?
                                && (f.ticketIds == [] || t in f.ticketIds)
    ensures targets == RefundTargets(db, f) && targets <= ActiveTickets(db.tickets, f.order)
  {}

  /** What the service does, by the guards of the request. */
  lemma RefundOutcome(db: Db, f: Request)
    requires f.IssueRefund? && Constraints(db)
    ensures !MayRefund(db, f) ==> RefundOrder(db, f) == Outcome(db, Raised(NotFound))
    ensures MayRefund(db, f) ==>
      var o, targets := db.orders[f.order], RefundTargets(db, f);
      RefundOrder(db, f) ==
      if o.status.Refunded? || o.status.Failed? || targets == {} then Outcome(db, Raised(InvalidRefund))
      else if f.gateway.Declined? then Outcome(db, Raised(PaymentRefundFailed))
      else
        var amount := UnitCharge(o) * |targets|;
        if !(0 < amount <= MAX_INT) || f.newRefund in db.refunds
           || !TypeFits(Move(db.types[o.ticketType], -|targets|, 0)) then Outcome(db, Raised(DatabaseError))
        else
          var link := if f.ticketIds != [] && |targets| == 1 then OnlyMember(targets) else None;
          var status := StatusAfter(db, f.order, targets);
          Outcome(Db(db.events, db.types[o.ticketType := Move(db.types[o.ticketType], -|targets|, 0)], db.reservations,
                     db.orders[f.order := o.(status := status)], db.keyIndex, MarkRefunded(db.tickets, targets),
                     db.refunds[f.newRefund := Refund(f.order, link, amount, PaymentId(f.gateway))],
                     db.audit + [AuditRow(f.actor, RefundIssued(f.newRefund, f.order, amount, |targets|, status))]),
                  RefundReply(f.newRefund))
  {
    hide Constraints, TypeFits, RefundTargets, MarkRefunded, StatusAfter, OnlyMember, UnitCharge, PaymentId;
  }

  lemma RemainingActive(tickets: map<Id, Ticket>, o: Id, targets: set<Id>)
    requires targets <= ActiveTickets(tickets, o)
    ensures ActiveTickets(MarkRefunded(tickets, targets), o) == ActiveTickets(tickets, o) - targets
  {}

  /** Once a row trips a constraint the whole sweep is aborted. */
  lemma {:induction false} AbortIsFinal(db: Db, rows: seq<Id>, k: nat)
    requires Constraints(db) && k <= |rows| && forall r | r in rows :: r in db.reservations
    requires ExpireRows(db, rows[..k]).None?
    ensures ExpireRows(db, rows).None?
    decreases |rows| - k
  {
    hide Constraints, Releasable, ExpireOne;
    if k < |rows| {
      assert rows[..k + 1][..k] == rows[..k];
      AbortIsFinal(db, rows, k + 1);
    } else {
      assert rows[..k] == rows;
    }
  }
}

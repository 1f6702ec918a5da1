/** Run without interference, the statements of a transaction do exactly what its service does. */
module SerialPlans {
  import opened Schema
  import opened Services
  import opened Invariants
  import opened Preservation
  import opened Runs
  import opened Machine

  function Committed(db: Db, plan: seq<Stmt>): Db {
    Merge(db, WritesAfter(db, plan, |plan|))
  }

  lemma NextWrites(db: Db, plan: seq<Stmt>, k: nat)
    requires k < |plan|
    ensures WritesAfter(db, plan, 0) == NO_WRITES
    ensures WritesAfter(db, plan, k + 1) == Exec(db, WritesAfter(db, plan, k), plan[k])
  {}

  /** Adding a single written row to a table is updating that row. */
  lemma OverlayRow<K, V>(m: map<K, V>, k: K, v: V)
    ensures m + map[k := v] == m[k := v]
  {}

  lemma OverlayNothing<K, V>(m: map<K, V>)
    ensures m + map[] == m
  {}

  lemma EmptyPlan(db: Db)
    ensures Merge(db, NO_WRITES) == db
    ensures Committed(db, []) == db
  {
    OverlayNothing(db.types); OverlayNothing(db.reservations); OverlayNothing(db.orders);
    OverlayNothing(db.keyIndex); OverlayNothing(db.tickets); OverlayNothing(db.refunds);
  }

  lemma CollisionSerial(db: Db, p: Request)
    requires p.Purchase? && p.key in db.keyIndex
    ensures Committed(db, CollisionPlan(p, db.keyIndex[p.key])) == Collision(db, p).db
  {
    LogWrites(db, p.actor, IdempotencyCollision(db.keyIndex[p.key], p.key));
    hide WritesAfter;
    EmptyPlan(db);
  }

  lemma LogWrites(db: Db, actor: string, change: Change)
    ensures WritesAfter(db, [WriteLog(actor, change)], 1) == NO_WRITES.(audit := [AuditRow(actor, change)])
  {
    NextWrites(db, [WriteLog(actor, change)], 0);
  }

  // ---------- create_reservation ----------

  lemma CreateWrites(db: Db, c: Request, t: TicketType, held: int, row: Reservation, log: AuditRow, plan: seq<Stmt>)
    requires c.Create? && c.ticketType in db.types && t == db.types[c.ticketType]
    requires plan == [WriteHeld(c.ticketType, held), InsertReservation(c.newReservation, row),
                      WriteLog(log.actor, log.change)]
    ensures WritesAfter(db, plan, 3) == NO_WRITES.(types := map[c.ticketType := t.(held := held)],
                                                  reservations := map[c.newReservation := row], audit := [log])
  {
    hide WritesAfter;
    OverlayNothing(db.types);
    NextWrites(db, plan, 0);
    NextWrites(db, plan, 1);
    NextWrites(db, plan, 2);
  }

  lemma CreateSerial(db: Db, c: Request, t: TicketType, e: Event)
    requires Constraints(db) && c.Create? && c.ticketType in db.types && t == db.types[c.ticketType]
    requires t.event in db.events && e == db.events[t.event]
    requires DecideCreate(c, t, e).Go? ==> c.newReservation !in db.reservations
    ensures match DecideCreate(c, t, e)
            case Refuse(error) => CreateReservation(db, c) == Outcome(db, Raised(error))
            case Go(plan, reply) => CreateReservation(db, c) == Outcome(Committed(db, plan), reply)
  {
    hide Constraints, WritesAfter;
    match DecideCreate(c, t, e)
    case Refuse(_) =>
    case Go(plan, reply) =>
      var row, log := plan[1].reservationRow, AuditRow(plan[2].actor, plan[2].change);
      CreateWrites(db, c, t, plan[0].held, row, log, plan);
      OverlayRow(db.types, c.ticketType, t.(held := plan[0].held));
      OverlayRow(db.reservations, c.newReservation, row);
      OverlayNothing(db.orders); OverlayNothing(db.keyIndex); OverlayNothing(db.tickets); OverlayNothing(db.refunds);
  }

  // ---------- cancel_reservation, one row of the sweep ----------

  lemma ReleaseWrites(db: Db, w: Db, r: Id, status: ReservationStatus, actor: string, change: Change)
    requires r in db.reservations + w.reservations
        && (db.reservations + w.reservations)[r].ticketType in db.types + w.types
    ensures var row := (db.reservations + w.reservations)[r];
            var plan := ReleasePlan(r, row, status, actor, change);
            Exec(db, Exec(db, Exec(db, w, plan[0]), plan[1]), plan[2]) ==
            w.(types := w.types[row.ticketType := Move((db.types + w.types)[row.ticketType], 0, -row.quantity)],
               reservations := w.reservations[r := row.(status := status)],
               audit := w.audit + [AuditRow(actor, change)])
  {}

  lemma OverlayUpdate<K, V>(m: map<K, V>, w: map<K, V>, k: K, v: V)
    ensures m + w[k := v] == (m + w)[k := v]
  {}

  /** Releasing one more reservation on top of what the transaction already wrote. */
  lemma ReleaseOnTop(db: Db, w: Db, r: Id, status: ReservationStatus, actor: string, change: Change)
    requires Constraints(Merge(db, w)) && r in Merge(db, w).reservations
    requires Merge(db, w).reservations[r].ticketType in Merge(db, w).types
    ensures var v := Merge(db, w);
            var plan := ReleasePlan(r, v.reservations[r], status, actor, change);
            Merge(db, Exec(db, Exec(db, Exec(db, w, plan[0]), plan[1]), plan[2]))
                == Release(v, r, status, actor, change)
  {
    hide Constraints, Exec, ReleasePlan, Move;
    var v := Merge(db, w);
    var row := v.reservations[r];
    var type', row' := Move(v.types[row.ticketType], 0, -row.quantity), row.(status := status);
    ReleaseWrites(db, w, r, status, actor, change);
    MergeRelease(db, w, row.ticketType, type', r, row', AuditRow(actor, change));
    hide Merge;
  }

  lemma MergeRelease(db: Db, w: Db, t: Id, type': TicketType, r: Id, row': Reservation, log: AuditRow)
    ensures var v := Merge(db, w);
            Merge(db, w.(types := w.types[t := type'], reservations := w.reservations[r := row'],
                         audit := w.audit + [log]))
            == v.(types := v.types[t := type'], reservations := v.reservations[r := row'], audit := v.audit + [log])
  {
    OverlayUpdate(db.types, w.types, t, type');
    OverlayUpdate(db.reservations, w.reservations, r, row');
  }

  lemma ReleaseSerial(db: Db, r: Id, status: ReservationStatus, actor: string, change: Change)
    requires Constraints(db) && r in db.reservations && db.reservations[r].ticketType in db.types
    ensures Committed(db, ReleasePlan(r, db.reservations[r], status, actor, change))
         == Release(db, r, status, actor, change)
  {
    hide Constraints, Exec, Merge, WritesAfter, NO_WRITES, Release;
    var plan := ReleasePlan(r, db.reservations[r], status, actor, change);
    EmptyPlan(db);
    ReleaseOnTop(db, NO_WRITES, r, status, actor, change);
    NextWrites(db, plan, 0);
    NextWrites(db, plan, 1);
    NextWrites(db, plan, 2);
  }

  lemma CancelSerial(db: Db, c: Request)
    requires Inv(db) && c.Cancel? && c.reservation in db.reservations
    requires db.reservations[c.reservation].ticketType in db.types
    ensures match DecideCancel(c, db.reservations[c.reservation])
            case Refuse(e) => CancelReservation(db, c) == Outcome(db, Raised(e))
            case Go(plan, reply) => CancelReservation(db, c) == Outcome(Committed(db, plan), reply)
  {
    hide CountersExact, OrdersOk, OrdersMatch, ReservationsOk, TicketsOk, Release, Releasable, Committed, ReleasePlan;
    EmptyPlan(db);
    var row := db.reservations[c.reservation];
    if row.status.Active? {
      ActiveIsReleasable(db, c.reservation);
      ReleaseSerial(db, c.reservation, ReservationStatus.Cancelled, c.user.email,
                    HoldCancelled(c.reservation, row.quantity));
    }
  }

  // ---------- sweep_expired_reservations ----------

  lemma {:induction false} PrefixWrites(db: Db, a: seq<Stmt>, b: seq<Stmt>, k: nat)
    requires k <= |a|
    ensures WritesAfter(db, a + b, k) == WritesAfter(db, a, k)
  {
    hide Exec;
    if k > 0 {
      PrefixWrites(db, a, b, k - 1);
    }
  }

  /** The sweep's statements, run in the order of its rows, are the loop of the service. */
  lemma {:induction false} SweepSerial(db: Db, now: int, rows: seq<Id>)
    requires Inv(db) && Selection(db, now, rows)
    ensures ExpireRows(db, rows).Some?
    ensures Committed(db, SweepPlan(db.reservations, rows)) == ExpireRows(db, rows).value
  {
    hide Inv, Constraints, Exec, Merge, Release, Releasable, WritesAfter, ReleasePlan, NO_WRITES;
    InvBasics(db);
    ExpireRowsKeepsInv(db, now, rows);
    if rows == [] {
      EmptyPlan(db);
    } else {
      var n := |rows| - 1;
      assert Selection(db, now, rows[..n]) && rows[n] !in rows[..n] && Stale(db, now, rows[n]);
      var before, row := SweepPlan(db.reservations, rows[..n]), db.reservations[rows[n]];
      SweepSerial(db, now, rows[..n]);
      ExpireRowsKeepsInv(db, now, rows[..n]);
      var d := ExpireRows(db, rows[..n]).value;
      InvBasics(d);
      var last := ReleasePlan(rows[n], row, ReservationStatus.Expired, "system_sweep",
                              HoldExpired(rows[n], row.quantity));
      ReleaseLength(rows[n], row, ReservationStatus.Expired, "system_sweep", HoldExpired(rows[n], row.quantity));
      PrefixWrites(db, before, last, |before|);
      ReleaseOnTop(db, WritesAfter(db, before, |before|), rows[n], ReservationStatus.Expired, "system_sweep",
                   HoldExpired(rows[n], row.quantity));
      NextWrites(db, before + last, |before|);
      NextWrites(db, before + last, |before| + 1);
      NextWrites(db, before + last, |before| + 2);
    }
  }

  lemma ReleaseLength(r: Id, row: Reservation, status: ReservationStatus, actor: string, change: Change)
    ensures |ReleasePlan(r, row, status, actor, change)| == 3
  {}

  // ---------- process_purchase ----------

  // One statement on rows not yet written, or written last by an INSERT.

  lemma ExecAddCounters(db: Db, w: Db, t: Id, sold: int, held: int)
    requires w.types == map[] && t in db.types
    ensures Exec(db, w, AddCounters(t, sold, held)) == w.(types := map[t := Move(db.types[t], sold, held)])
  {
    OverlayNothing(db.types);
  }

  lemma ExecSetReservation(db: Db, w: Db, r: Id, status: ReservationStatus)
    requires w.reservations == map[] && r in db.reservations
    ensures Exec(db, w, SetReservation(r, status))
         == w.(reservations := map[r := db.reservations[r].(status := status)])
  {
    OverlayNothing(db.reservations);
  }

  lemma ExecInsertOrder(db: Db, w: Db, o: Id, row: Order)
    requires w.orders == map[] && w.keyIndex == map[]
    ensures Exec(db, w, InsertOrder(o, row)) == w.(orders := map[o := row], keyIndex := map[row.key := o])
  {}

  lemma ExecSetOrder(db: Db, w: Db, o: Id, row: Order, row': Order)
    requires w.orders == map[o := row]
    requires row' == row.(status := row'.status, paymentId := row'.paymentId, captured := row'.captured)
    ensures Exec(db, w, SetOrder(o, row'.status, row'.paymentId, row'.captured)) == w.(orders := map[o := row'])
  {}

  lemma ExecInsertTickets(db: Db, w: Db, ids: seq<Id>, o: Id)
    requires w.tickets == map[]
    ensures Exec(db, w, InsertTickets(ids, o)) == w.(tickets := WithTickets(map[], ids, o))
  {}

  lemma ExecLog(db: Db, w: Db, actor: string, change: Change)
    requires w.audit == []
    ensures Exec(db, w, WriteLog(actor, change)) == w.(audit := [AuditRow(actor, change)])
  {}

  lemma DeclineSerial(db: Db, p: Request, row: Reservation, o: Order)
    requires p.Purchase? && p.capture.Declined? && p.newOrder !in db.orders && o.key == p.key
    requires o.status.Processing? && o.paymentId == "" && o.captured == 0
    ensures Committed(db, PurchasePlan(p, row, o)) == WithOrder(db, p.newOrder, o.(status := OrderStatus.Failed))
  {
    hide WritesAfter, Exec;
    var plan, failed := PurchasePlan(p, row, o), o.(status := OrderStatus.Failed);
    NextWrites(db, plan, 0);
    ExecInsertOrder(db, NO_WRITES, p.newOrder, o);
    NextWrites(db, plan, 1);
    ExecSetOrder(db, WritesAfter(db, plan, 1), p.newOrder, o, failed);
    OverlayRow(db.orders, p.newOrder, failed);
    OverlayRow(db.keyIndex, p.key, p.newOrder);
    OverlayNothing(db.types); OverlayNothing(db.reservations); OverlayNothing(db.tickets); OverlayNothing(db.refunds);
  }

  lemma FulfilWrites(db: Db, p: Request, row: Reservation, t: TicketType, o: Order)
    requires p.Purchase? && p.capture.Approved? && o.key == p.key
    requires p.reservation in db.reservations && row == db.reservations[p.reservation]
    requires row.ticketType in db.types && t == db.types[row.ticketType]
    ensures var paid := o.(status := OrderStatus.Confirmed, paymentId := PaymentId(p.capture),
                           captured := AmountDue(o));
            WritesAfter(db, PurchasePlan(p, row, o), 6) ==
            NO_WRITES.(types := map[row.ticketType := Move(t, row.quantity, -row.quantity)],
                      reservations := map[p.reservation := row.(status := ReservationStatus.Confirmed)],
                      orders := map[p.newOrder := paid], keyIndex := map[p.key := p.newOrder],
                      tickets := WithTickets(map[], p.newTickets, p.newOrder),
                      audit := [AuditRow(p.actor, InventorySold(row.ticketType, -row.quantity, row.quantity,
                                                                p.newOrder, o.total))])
  {
    hide WritesAfter, Exec, WithTickets, AmountDue, PaymentId, Move;
    var q, plan := row.quantity, PurchasePlan(p, row, o);
    var paid := o.(status := OrderStatus.Confirmed, paymentId := PaymentId(p.capture), captured := AmountDue(o));
    NextWrites(db, plan, 0);
    ExecInsertOrder(db, NO_WRITES, p.newOrder, o);
    NextWrites(db, plan, 1);
    ExecAddCounters(db, WritesAfter(db, plan, 1), row.ticketType, q, -q);
    NextWrites(db, plan, 2);
    ExecInsertTickets(db, WritesAfter(db, plan, 2), p.newTickets, p.newOrder);
    NextWrites(db, plan, 3);
    ExecSetOrder(db, WritesAfter(db, plan, 3), p.newOrder, o, paid);
    NextWrites(db, plan, 4);
    ExecSetReservation(db, WritesAfter(db, plan, 4), p.reservation, ReservationStatus.Confirmed);
    NextWrites(db, plan, 5);
    ExecLog(db, WritesAfter(db, plan, 5), p.actor,
            InventorySold(row.ticketType, -q, q, p.newOrder, o.total));
  }

  lemma MintOverlay(tickets: map<Id, Ticket>, ids: seq<Id>, o: Id)
    ensures tickets + WithTickets(map[], ids, o) == WithTickets(tickets, ids, o)
  {}

  lemma FulfilSerial(db: Db, p: Request, row: Reservation, t: TicketType, o: Order)
    requires Constraints(db) && p.Purchase? && p.capture.Approved? && o.key == p.key
    requires p.reservation in db.reservations && row == db.reservations[p.reservation]
    requires row.ticketType in db.types && t == db.types[row.ticketType]
    ensures Committed(db, PurchasePlan(p, row, o)) == Fulfil(db, p, o)
  {
    hide Constraints, WritesAfter, WithTickets, AmountDue, PaymentId, Move;
    var paid := o.(status := OrderStatus.Confirmed, paymentId := PaymentId(p.capture), captured := AmountDue(o));
    FulfilWrites(db, p, row, t, o);
    OverlayRow(db.types, row.ticketType, Move(t, row.quantity, -row.quantity));
    OverlayRow(db.reservations, p.reservation, row.(status := ReservationStatus.Confirmed));
    OverlayRow(db.orders, p.newOrder, paid);
    OverlayRow(db.keyIndex, p.key, p.newOrder);
    MintOverlay(db.tickets, p.newTickets, p.newOrder);
    OverlayNothing(db.refunds);
  }

  /** A purchase that found its key unused, and whose key is still unused when it ends. */
  lemma PurchaseSerial(db: Db, p: Request, row: Reservation, t: TicketType)
    requires Inv(db) && p.Purchase? && Admissible(db, p) && p.key !in db.keyIndex
    requires p.reservation in db.reservations && row == db.reservations[p.reservation]
    requires row.ticketType in db.types && t == db.types[row.ticketType] && t.event in db.events && Constraints(db)
    requires DecidePurchase(p, row, t, db.events[t.event].salesPaused).Go? ==>
               p.newOrder !in db.orders && (p.capture.Approved? ==> Mintable(db, p.newTickets))
    ensures match DecidePurchase(p, row, t, db.events[t.event].salesPaused)
            case Refuse(e) => ProcessPurchase(db, p) == Outcome(db, Raised(e))
            case Go(plan, reply) => ProcessPurchase(db, p) == Outcome(Committed(db, plan), reply)
  {
    hide Inv, Constraints, Committed, PurchasePlan, Fulfil, WithOrder, TypeFits, OrderFits;
    match DecidePurchase(p, row, t, db.events[t.event].salesPaused)
    case Refuse(_) =>
    case Go(plan, reply) =>
      var o := NewOrder(p, row, t);
      RowQuantity(db, p.reservation);
      MoveFits(db, p.reservation);
      if p.capture.Declined? {
        DeclineSerial(db, p, row, o);
      } else {
        FulfilSerial(db, p, row, t, o);
      }
  }

  lemma RowQuantity(db: Db, r: Id)
    requires Inv(db) && r in db.reservations
    ensures db.reservations[r].quantity >= 1
  {}

  // ---------- issue_refund ----------

  function ReturnedRows(tickets: map<Id, Ticket>, targets: set<Id>): map<Id, Ticket>
    requires targets <= tickets.Keys
  {
    map t | t in targets :: tickets[t].(status := TicketStatus.Refunded)
  }

  lemma ExecReturn(db: Db, w: Db, o: Id, only: seq<Id>)
    requires w.tickets == map[]
    ensures Exec(db, w, ReturnTickets(o, only))
        == w.(tickets := ReturnedRows(db.tickets, Matching(db.tickets, o, only)))
  {
    OverlayNothing(db.tickets);
  }

  lemma ExecInsertRefund(db: Db, w: Db, f: Id, row: Refund)
    requires w.refunds == map[]
    ensures Exec(db, w, InsertRefund(f, row)) == w.(refunds := map[f := row])
  {}

  lemma ExecLinkRefund(db: Db, w: Db, f: Id, row: Refund, ticket: Option<Id>)
    requires w.refunds == map[f := row]
    ensures Exec(db, w, LinkRefund(f, ticket)) == w.(refunds := map[f := row.(ticket := ticket)])
  {}

  lemma ReturnOverlay(tickets: map<Id, Ticket>, o: Id, targets: set<Id>)
    requires targets <= ActiveTickets(tickets, o)
    ensures tickets + ReturnedRows(tickets, targets) == MarkRefunded(tickets, targets)
    ensures ActiveTickets(MarkRefunded(tickets, targets), o) == ActiveTickets(tickets, o) - targets
  {}

  lemma ExecSettle(db: Db, w: Db, o: Id, targets: set<Id>)
    requires w.orders == map[] && o in db.orders && targets <= ActiveTickets(db.tickets, o)
    requires w.tickets == ReturnedRows(db.tickets, targets)
    ensures Exec(db, w, SettleOrder(o)) == w.(orders := map[o := db.orders[o].(status := StatusAfter(db, o, targets))])
  {
    hide ReturnedRows, MarkRefunded, ActiveTickets;
    ReturnOverlay(db.tickets, o, targets);
    OverlayNothing(db.orders);
  }

  lemma ExecLogRefund(db: Db, w: Db, actor: string, f: Id, o: Id, row: Order, amount: int, n: int)
    requires w.orders == map[o := row] && w.audit == []
    ensures Exec(db, w, LogRefund(actor, f, o, amount, n))
         == w.(audit := [AuditRow(actor, RefundIssued(f, o, amount, n, row.status))])
  {}

  /** The first three statements record the refund and return the tickets. */
  lemma RefundRowsWritten(db: Db, f: Request, o: Order, targets: set<Id>, link: Option<Id>)
    requires f.IssueRefund? && f.gateway.Approved? && o.quantity >= 1
    requires targets == Matching(db.tickets, f.order, f.ticketIds)
    requires link == if f.ticketIds != [] && |targets| == 1 then OnlyMember(targets) else None
    ensures WritesAfter(db, RefundPlan(f, o, targets), 3) ==
            NO_WRITES.(tickets := ReturnedRows(db.tickets, targets),
                      refunds := map[f.newRefund := Refund(f.order, link, UnitCharge(o) * |targets|,
                                                           PaymentId(f.gateway))])
  {
    hide WritesAfter, Exec, UnitCharge, PaymentId, Matching, OnlyMember, ReturnedRows, ActiveTickets;
    var plan := RefundPlan(f, o, targets);
    var row := plan[0].refundRow;
    NextWrites(db, plan, 0);
    ExecInsertRefund(db, NO_WRITES, f.newRefund, row);
    NextWrites(db, plan, 1);
    ExecReturn(db, WritesAfter(db, plan, 1), f.order, f.ticketIds);
    NextWrites(db, plan, 2);
    ExecLinkRefund(db, WritesAfter(db, plan, 2), f.newRefund, row, link);
  }

  lemma RefundWrites(db: Db, f: Request, o: Order, t: TicketType, targets: set<Id>, link: Option<Id>)
    requires f.IssueRefund? && f.gateway.Approved? && o.quantity >= 1
    requires f.order in db.orders && o == db.orders[f.order] && o.ticketType in db.types && t == db.types[o.ticketType]
    requires targets == Matching(db.tickets, f.order, f.ticketIds) && targets <= ActiveTickets(db.tickets, f.order)
    requires link == if f.ticketIds != [] && |targets| == 1 then OnlyMember(targets) else None
    ensures var n, amount, status := |targets|, UnitCharge(o) * |targets|, StatusAfter(db, f.order, targets);
            WritesAfter(db, RefundPlan(f, o, targets), 6) ==
            NO_WRITES.(types := map[o.ticketType := Move(t, -n, 0)], orders := map[f.order := o.(status := status)],
                      tickets := ReturnedRows(db.tickets, targets),
                      refunds := map[f.newRefund := Refund(f.order, link, amount, PaymentId(f.gateway))],
                      audit := [AuditRow(f.actor, RefundIssued(f.newRefund, f.order, amount, n, status))])
  {
    hide WritesAfter, Exec, UnitCharge, PaymentId, Move, StatusAfter, Matching, OnlyMember, ReturnedRows, ActiveTickets;
    var n, status, plan := |targets|, StatusAfter(db, f.order, targets), RefundPlan(f, o, targets);
    RefundRowsWritten(db, f, o, targets, link);
    NextWrites(db, plan, 3);
    ExecAddCounters(db, WritesAfter(db, plan, 3), o.ticketType, -n, 0);
    NextWrites(db, plan, 4);
    ExecSettle(db, WritesAfter(db, plan, 4), f.order, targets);
    NextWrites(db, plan, 5);
    ExecLogRefund(db, WritesAfter(db, plan, 5), f.actor, f.newRefund, f.order, o.(status := status),
                  UnitCharge(o) * n, n);
  }

  lemma MatchingTargets(db: Db, f: Request)
    requires f.IssueRefund?
    ensures Matching(db.tickets, f.order, f.ticketIds) == RefundTargets(db, f)
    ensures RefundTargets(db, f) <= ActiveTickets(db.tickets, f.order)
  {}

  lemma RefundingSerial(db: Db, f: Request, o: Order, targets: set<Id>)
    requires Constraints(db) && f.IssueRefund? && f.gateway.Approved? && o.quantity >= 1
    requires f.order in db.orders && o == db.orders[f.order] && o.ticketType in db.types
    requires targets == RefundTargets(db, f)
    ensures Committed(db, RefundPlan(f, o, targets)) == Refunding(db, f, targets)
  {
    hide Constraints, WritesAfter, UnitCharge, PaymentId, Move, StatusAfter, Matching, OnlyMember, ReturnedRows,
         ActiveTickets, MarkRefunded, RefundTargets;
    var link := if f.ticketIds != [] && |targets| == 1 then OnlyMember(targets) else None;
    MatchingTargets(db, f);
    RefundWrites(db, f, o, db.types[o.ticketType], targets, link);
    var w := WritesAfter(db, RefundPlan(f, o, targets), 6);
    OverlayRow(db.types, o.ticketType, Move(db.types[o.ticketType], -|targets|, 0));
    OverlayRow(db.orders, f.order, o.(status := StatusAfter(db, f.order, targets)));
    OverlayRow(db.refunds, f.newRefund, w.refunds[f.newRefund]);
    ReturnOverlay(db.tickets, f.order, targets);
    OverlayNothing(db.reservations); OverlayNothing(db.keyIndex);
  }

  lemma RefundSerial(db: Db, f: Request, o: Order)
    requires Inv(db) && Constraints(db) && f.IssueRefund? && MayRefund(db, f)
    requires o == db.orders[f.order] && o.quantity >= 1 && o.ticketType in db.types
    requires !o.status.Refunded? && !o.status.Failed?
    requires DecideRefund(f, o, RefundTargets(db, f)).Go? ==> f.newRefund !in db.refunds
    ensures match DecideRefund(f, o, RefundTargets(db, f))
            case Refuse(e) => RefundOrder(db, f) == Outcome(db, Raised(e))
            case Go(plan, reply) => RefundOrder(db, f) == Outcome(Committed(db, plan), reply)
  {
    hide Inv, Constraints, Committed, RefundPlan, RefundTargets, Refunding, TypeFits, UnitCharge;
    if Refundable(db, f) {
      RefundMoveFits(db, f);
      RefundingSerial(db, f, o, RefundTargets(db, f));
    }
  }
}

/** Runs of requests one after another, and what can never change along them. */
module Runs {
  import opened Sums
  import opened Schema
  import opened Services
  import opened Invariants
  import opened Preservation

  /** The database after the requests of `log` ran serially, or None when one of them
      was not admissible or was answered differently. */
  ghost function Replay(db: Db, log: seq<Entry>): (out: Option<Db>)
    requires Inv(db)
    ensures out.Some? ==> Inv(out.value)
  {
    if log == [] then Some(db)
    else
      var n := |log| - 1;
      match Replay(db, log[..n])
      case None => None
      case Some(d) => Extend(d, log[n])
  }

  ghost function Extend(d: Db, e: Entry): (out: Option<Db>)
    requires Inv(d)
    ensures out.Some? ==> Inv(out.value)
  {
    if Admissible(d, e.request) && Apply(d, e.request).reply == e.reply then
      ApplyKeepsInv(d, e.request);
      Some(Apply(d, e.request).db)
    else None
  }

  /** A database before any sale. */
  ghost predicate Pristine(db: Db) {
    Inv(db) && db.reservations == map[] && db.orders == map[] && db.audit == []
  }

  lemma UntouchedIsExact(types: map<Id, TicketType>)
    requires forall t | t in types :: types[t].sold == 0 && types[t].held == 0
    ensures CountersExact(types, map[], map[], map[])
  {
    var none: map<Id, Ticket>, orders: map<Id, Order>, rs: map<Id, Reservation> := map[], map[], map[];
    forall t | t in types ensures ActualSold(none, orders, t) == 0 && ActualHeld(rs, t) == 0 {
      assert SoldTickets(none, orders, t) == {};
    }
    hide ActualSold, ActualHeld;
  }

  lemma EmptyTablesAreOk()
    ensures OrdersOk(map[], map[], map[]) && OrdersMatch(map[], map[], map[]) && ReservationsOk(map[], map[])
    ensures TicketsOk(map[])
  {}

  /** Any events with any valid, untouched ticket types are a place to begin. */
  lemma AnyOfferIsPristine(events: map<Id, Event>, types: map<Id, TicketType>)
    requires forall t | t in types :: types[t].event in events && types[t].sold == 0 && types[t].held == 0
               && 0 <= types[t].capacity <= 2147483647 && 0 <= types[t].price <= 2147483647
               && 0 <= types[t].fee <= 2147483647 && 0 <= types[t].tax <= 2147483647
    ensures Pristine(Db(events, types, map[], map[], map[], map[], map[], []))
  {
    hide CountersExact, OrdersOk, ReservationsOk, TicketsOk;
    UntouchedIsExact(types);
    EmptyTablesAreOk();
  }

  lemma ReplayAppend(db: Db, log: seq<Entry>, e: Entry)
    requires Inv(db) && Replay(db, log).Some?
    ensures Replay(db, log + [e]) == Extend(Replay(db, log).value, e)
  {
    assert (log + [e])[..|log|] == log;
  }

  /** A run may be cut anywhere: its second part runs from where the first part ended. */
  lemma {:induction false} ReplaySplit(db: Db, log: seq<Entry>, k: nat)
    requires Inv(db) && Replay(db, log).Some? && k <= |log|
    ensures Replay(db, log[..k]).Some?
    ensures Replay(Replay(db, log[..k]).value, log[k..]) == Replay(db, log)
  {
    hide Inv, Extend;
    if k == |log| {
      assert log[..k] == log && log[k..] == [];
    } else {
      var n := |log| - 1;
      assert log[..n][..k] == log[..k] && log[k..][..n - k] == log[..n][k..] && log[k..][n - k] == log[n];
      ReplaySplit(db, log[..n], k);
    }
  }

  // ---------- what every step preserves about the rows it finds ----------

  /** CONFIRMED, EXPIRED and CANCELLED are terminal; the terms never change. */
  predicate ReservationsEvolve(before: map<Id, Reservation>, after: map<Id, Reservation>) {
    forall r | r in before :: r in after && after[r] == before[r].(status := after[r].status)
                              && (!before[r].status.Active? ==> after[r].status == before[r].status)
  }

  /** Refunds move an order forward; FAILED and REFUNDED are terminal. */
  predicate Forward(s: OrderStatus, s': OrderStatus) {
    s == s' || (s'.PartiallyRefunded? && s.Confirmed?) || (s'.Refunded? && (s.Confirmed? || s.PartiallyRefunded?))
  }

  predicate OrdersEvolve(before: map<Id, Order>, after: map<Id, Order>) {
    forall o | o in before :: o in after && after[o] == before[o].(status := after[o].status)
                              && Forward(before[o].status, after[o].status)
  }

  /** A ticket stays with its order and a refunded ticket stays refunded. */
  predicate TicketsEvolve(before: map<Id, Ticket>, after: map<Id, Ticket>) {
    forall t | t in before :: t in after && after[t].order == before[t].order
                              && (before[t].status.Refunded? ==> after[t].status.Refunded?)
  }

  predicate TypesEvolve(before: map<Id, TicketType>, after: map<Id, TicketType>) {
    && before.Keys == after.Keys
    && forall t | t in before :: after[t] == before[t].(sold := after[t].sold, held := after[t].held)
  }

  predicate Evolves(db: Db, d: Db) {
    && ReservationsEvolve(db.reservations, d.reservations)
    && OrdersEvolve(db.orders, d.orders)
    && TicketsEvolve(db.tickets, d.tickets)
    && TypesEvolve(db.types, d.types)
    && db.events.Keys == d.events.Keys
    && (forall k | k in db.keyIndex :: k in d.keyIndex && d.keyIndex[k] == db.keyIndex[k])
    && (forall f | f in db.refunds :: f in d.refunds && d.refunds[f] == db.refunds[f])
    && db.audit <= d.audit
  }

  lemma EvolvesTransitive(a: Db, b: Db, c: Db)
    requires Evolves(a, b) && Evolves(b, c)
    ensures Evolves(a, c)
  {
    forall r | r in a.reservations ensures r in c.reservations
      && c.reservations[r] == a.reservations[r].(status := c.reservations[r].status) {
      assert r in b.reservations;
    }
    forall o | o in a.orders ensures o in c.orders && c.orders[o] == a.orders[o].(status := c.orders[o].status) {
      assert o in b.orders;
    }
  }

  lemma EvolvesReflexive(db: Db)
    ensures Evolves(db, db)
  {}

  // Single row writes.

  lemma MoveEvolves(types: map<Id, TicketType>, t: Id, sold: int, held: int)
    requires t in types
    ensures TypesEvolve(types, types[t := Move(types[t], sold, held)])
  {
    assert types[t := Move(types[t], sold, held)].Keys == types.Keys;
  }

  lemma ReservationWriteEvolves(rs: map<Id, Reservation>, r: Id, row: Reservation)
    requires r in rs ==> rs[r].status.Active? && row == rs[r].(status := row.status)
    ensures ReservationsEvolve(rs, rs[r := row])
  {}

  lemma OrderWriteEvolves(os: map<Id, Order>, o: Id, row: Order)
    requires o in os ==> row == os[o].(status := row.status) && Forward(os[o].status, row.status)
    ensures OrdersEvolve(os, os[o := row])
  {}

  lemma TicketWritesEvolve(ts: map<Id, Ticket>, ids: seq<Id>, o: Id, targets: set<Id>)
    ensures Members(ids) !! ts.Keys ==> TicketsEvolve(ts, WithTickets(ts, ids, o))
    ensures TicketsEvolve(ts, MarkRefunded(ts, targets))
  {}

  lemma SameTablesEvolve(db: Db)
    ensures TypesEvolve(db.types, db.types) && ReservationsEvolve(db.reservations, db.reservations)
    ensures OrdersEvolve(db.orders, db.orders) && TicketsEvolve(db.tickets, db.tickets)
  {}

  /** What most arguments need of the invariant: every row a service follows a key to is there. */
  lemma InvBasics(db: Db)
    requires Inv(db)
    ensures Constraints(db)
    ensures ReservationsLinked(db.reservations, db.types.Keys)
    ensures forall o | o in db.orders :: !db.orders[o].status.Processing?
                                         && db.orders[o].ticketType in db.types && db.orders[o].quantity >= 1
    ensures forall t | t in db.types :: db.types[t].event in db.events
  {
    hide CountersExact, OrdersMatch, ReservationsOk, TicketsOk;
    forall o | o in db.orders ensures !db.orders[o].status.Processing? && db.orders[o].quantity >= 1 {
      assert BooksOk(db.orders[o], TallyOf(db.tickets, db.refunds, o));
    }
  }

  /** A used key keeps its order. */
  lemma KeysPersist(db: Db, d: Db)
    requires Evolves(db, d)
    ensures forall k | k in db.keyIndex :: k in d.keyIndex && d.keyIndex[k] == db.keyIndex[k]
  {}

  lemma CreateEvolves(db: Db, q: Request)
    requires Inv(db) && Admissible(db, q) && q.Create?
    ensures Evolves(db, CreateReservation(db, q).db)
  {
    hide Inv, Constraints, TypesEvolve, ReservationsEvolve, OrdersEvolve, TicketsEvolve;
    InvBasics(db);
    SameTablesEvolve(db);
    var d := CreateReservation(db, q).db;
    if d != db {
      MoveEvolves(db.types, q.ticketType, 0, q.quantity);
      ReservationWriteEvolves(db.reservations, q.newReservation, d.reservations[q.newReservation]);
    }
  }

  lemma ReleaseEvolves(db: Db, r: Id, status: ReservationStatus, actor: string, change: Change)
    requires Inv(db) && r in db.reservations && db.reservations[r].status.Active?
    requires Constraints(db)
    ensures Evolves(db, Release(db, r, status, actor, change))
  {
    hide Inv, Constraints, TypesEvolve, ReservationsEvolve, OrdersEvolve, TicketsEvolve;
    InvBasics(db);
    SameTablesEvolve(db);
    var row := db.reservations[r];
    MoveEvolves(db.types, row.ticketType, 0, -row.quantity);
    ReservationWriteEvolves(db.reservations, r, row.(status := status));
  }

  lemma CancelEvolves(db: Db, q: Request)
    requires Inv(db) && q.Cancel?
    ensures Evolves(db, CancelReservation(db, q).db)
  {
    hide Inv, Constraints, Evolves, Release, Releasable;
    InvBasics(db);
    EvolvesReflexive(db);
    if q.reservation in db.reservations && db.reservations[q.reservation].status.Active? {
      ReleaseEvolves(db, q.reservation, ReservationStatus.Cancelled, q.user.email,
                     HoldCancelled(q.reservation, db.reservations[q.reservation].quantity));
    }
  }

  lemma {:induction false} ExpireRowsEvolves(db: Db, now: int, rows: seq<Id>)
    requires Inv(db) && Selection(db, now, rows)
    ensures ExpireRows(db, rows).Some? && Evolves(db, ExpireRows(db, rows).value)
  {
    hide Inv, Constraints, Evolves, Release, Releasable;
    InvBasics(db);
    ExpireRowsKeepsInv(db, now, rows);
    if rows == [] {
      EvolvesReflexive(db);
    } else {
      var n := |rows| - 1;
      assert Selection(db, now, rows[..n]) && rows[n] !in rows[..n] && Stale(db, now, rows[n]);
      ExpireRowsKeepsInv(db, now, rows[..n]);
      ExpireRowsEvolves(db, now, rows[..n]);
      var d := ExpireRows(db, rows[..n]).value;
      ReleaseEvolves(d, rows[n], ReservationStatus.Expired, "system_sweep",
                     HoldExpired(rows[n], d.reservations[rows[n]].quantity));
      EvolvesTransitive(db, d, ExpireOne(d, rows[n]));
    }
  }

  lemma NewOrderEvolves(db: Db, p: Request, row: Order)
    requires p.Purchase? && p.newOrder !in db.orders && row.key !in db.keyIndex
    ensures Evolves(db, WithOrder(db, p.newOrder, row))
  {
    hide TypesEvolve, ReservationsEvolve, OrdersEvolve, TicketsEvolve;
    SameTablesEvolve(db);
    OrderWriteEvolves(db.orders, p.newOrder, row);
  }

  lemma FulfilEvolves(db: Db, p: Request, row: Order)
    requires Constraints(db) && p.Purchase? && p.capture.Approved?
    requires p.newOrder !in db.orders && Mintable(db, p.newTickets)
    requires p.reservation in db.reservations && db.reservations[p.reservation].status.Active?
    requires db.reservations[p.reservation].ticketType in db.types && row.key !in db.keyIndex
    ensures Evolves(db, Fulfil(db, p, row))
  {
    hide Constraints, TypesEvolve, ReservationsEvolve, OrdersEvolve, TicketsEvolve, WithTickets;
    var r, t := db.reservations[p.reservation], db.reservations[p.reservation].ticketType;
    OrderWriteEvolves(db.orders, p.newOrder, Fulfil(db, p, row).orders[p.newOrder]);
    TicketWritesEvolve(db.tickets, p.newTickets, p.newOrder, {});
    MoveEvolves(db.types, t, r.quantity, -r.quantity);
    ReservationWriteEvolves(db.reservations, p.reservation, r.(status := ReservationStatus.Confirmed));
  }

  lemma LogEvolves(db: Db, actor: string, change: Change)
    ensures Evolves(db, Log(db, actor, change))
  {
    hide TypesEvolve, ReservationsEvolve, OrdersEvolve, TicketsEvolve;
    SameTablesEvolve(db);
  }

  lemma PurchaseEvolves(db: Db, p: Request)
    requires Inv(db) && Admissible(db, p) && p.Purchase?
    ensures Evolves(db, ProcessPurchase(db, p).db)
  {
    hide Inv, Constraints, Evolves, OrderFits, TypeFits, Fulfil, WithOrder;
    InvBasics(db);
    EvolvesReflexive(db);
    if p.key in db.keyIndex {
      LogEvolves(db, p.actor, IdempotencyCollision(db.keyIndex[p.key], p.key));
    } else if p.reservation in db.reservations && db.reservations[p.reservation].status.Active? {
      var o := OrderFor(db, p);
      if p.newOrder in db.orders {
      } else if p.capture.Declined? {
        NewOrderEvolves(db, p, o.(status := OrderStatus.Failed));
      } else if Mintable(db, p.newTickets) {
        FulfilEvolves(db, p, o);
      }
    }
  }

  lemma RefundingEvolves(db: Db, f: Request, targets: set<Id>)
    requires Constraints(db) && f.IssueRefund? && f.gateway.Approved? && f.newRefund !in db.refunds
    requires f.order in db.orders && db.orders[f.order].ticketType in db.types
    requires db.orders[f.order].status.Confirmed? || db.orders[f.order].status.PartiallyRefunded?
    ensures Evolves(db, Refunding(db, f, targets))
  {
    hide Constraints, TypesEvolve, ReservationsEvolve, OrdersEvolve, TicketsEvolve, UnitCharge, MarkRefunded;
    SameTablesEvolve(db);
    OrderWriteEvolves(db.orders, f.order, Refunding(db, f, targets).orders[f.order]);
    TicketWritesEvolve(db.tickets, [], f.order, targets);
    MoveEvolves(db.types, db.orders[f.order].ticketType, -|targets|, 0);
  }

  lemma RefundEvolves(db: Db, f: Request)
    requires Inv(db) && Admissible(db, f) && f.IssueRefund?
    ensures Evolves(db, RefundOrder(db, f).db)
  {
    hide Inv, Constraints, Evolves, TypeFits, UnitCharge, RefundTargets, Refunding;
    InvBasics(db);
    EvolvesReflexive(db);
    if MayRefund(db, f) && f.gateway.Approved? && f.newRefund !in db.refunds
       && !db.orders[f.order].status.Refunded? && !db.orders[f.order].status.Failed? {
      RefundingEvolves(db, f, RefundTargets(db, f));
    }
  }

  lemma PauseEvolves(db: Db, e: Id, paused: bool)
    requires e in db.events
    ensures Evolves(db, db.(events := db.events[e := db.events[e].(salesPaused := paused)]))
  {
    SameTablesEvolve(db);
    assert db.events[e := db.events[e].(salesPaused := paused)].Keys == db.events.Keys;
  }

  lemma ApplyEvolves(db: Db, q: Request)
    requires Inv(db) && Admissible(db, q)
    ensures Evolves(db, Apply(db, q).db)
  {
    hide Inv, Constraints, Evolves, CreateReservation, CancelReservation, ProcessPurchase, RefundOrder;
    match q
    case Create(_, _, _, _, _) => CreateEvolves(db, q);
    case Cancel(_, _) => CancelEvolves(db, q);
    case Purchase(_, _, _, _, _, _, _, _, _) => PurchaseEvolves(db, q);
    case IssueRefund(_, _, _, _, _, _) => RefundEvolves(db, q);
    case Sweep(now, rows) => ExpireRowsEvolves(db, now, rows);
    case SetPaused(e, paused) => PauseEvolves(db, e, paused);
  }

  /** Over every run: reservations leave ACTIVE once, orders only move forward, keys and
      refunds are permanent and the audit log only grows. */
  lemma {:induction false} RunEvolves(db: Db, log: seq<Entry>)
    requires Inv(db) && Replay(db, log).Some?
    ensures Evolves(db, Replay(db, log).value)
  {
    hide Inv, Evolves, Apply, Admissible;
    if log == [] {
      EvolvesReflexive(db);
    } else {
      var n := |log| - 1;
      RunEvolves(db, log[..n]);
      var d := Replay(db, log[..n]).value;
      ApplyEvolves(d, log[n].request);
      EvolvesTransitive(db, d, Replay(db, log).value);
    }
  }
}

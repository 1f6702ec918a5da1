/** The audit log is complete: replaying it reconstructs both counters of every ticket type,
    and it shows every hold released at most once. */
module AuditTrail {
  import opened Schema
  import opened Services
  import opened Invariants
  import opened Preservation
  import opened Runs

  /** What one row says about `held` of a ticket type; releases name a reservation. */
  function HeldChange(c: Change, rs: map<Id, Reservation>, t: Id): int {
    match c
    case InventoryHeld(tt, delta, _) => if tt == t then delta else 0
    case HoldCancelled(r, n) => if r in rs && rs[r].ticketType == t then -n else 0
    case HoldExpired(r, n) => if r in rs && rs[r].ticketType == t then -n else 0
    case InventorySold(tt, delta, _, _, _) => if tt == t then delta else 0
    case RefundIssued(_, _, _, _, _) => 0
    case IdempotencyCollision(_, _) => 0
  }

  /** What one row says about `sold`; refunds name an order. */
  function SoldChange(c: Change, os: map<Id, Order>, t: Id): int {
    match c
    case InventorySold(tt, _, delta, _, _) => if tt == t then delta else 0
    case RefundIssued(_, o, _, n, _) => if o in os && os[o].ticketType == t then -n else 0
    case _ => 0
  }

  function LoggedHeld(audit: seq<AuditRow>, rs: map<Id, Reservation>, t: Id): int {
    if audit == [] then 0
    else LoggedHeld(audit[..|audit| - 1], rs, t) + HeldChange(audit[|audit| - 1].change, rs, t)
  }

  function LoggedSold(audit: seq<AuditRow>, os: map<Id, Order>, t: Id): int {
    if audit == [] then 0
    else LoggedSold(audit[..|audit| - 1], os, t) + SoldChange(audit[|audit| - 1].change, os, t)
  }

  predicate Releases(c: Change, r: Id) {
    (c.HoldCancelled? && c.cancelled == r) || (c.HoldExpired? && c.expired == r)
  }

  /** How often the log records the release of a reservation's hold without a sale. */
  function ReleaseCount(audit: seq<AuditRow>, r: Id): nat {
    if audit == [] then 0
    else ReleaseCount(audit[..|audit| - 1], r) + if Releases(audit[|audit| - 1].change, r) then 1 else 0
  }

  /** Rows refer to reservations and orders that exist. */
  predicate Linked(c: Change, rs: set<Id>, os: set<Id>) {
    match c
    case HoldCancelled(r, _) => r in rs
    case HoldExpired(r, _) => r in rs
    case RefundIssued(_, o, _, _, _) => o in os
    case _ => true
  }

  predicate LogLinked(audit: seq<AuditRow>, rs: set<Id>, os: set<Id>) {
    forall a | a in audit :: Linked(a.change, rs, os)
  }

  predicate ReleasedOnce(db: Db) {
    forall r | r in db.reservations ::
      ReleaseCount(db.audit, r) ==
      if db.reservations[r].status.Cancelled? || db.reservations[r].status.Expired? then 1 else 0
  }

  predicate TrailOk(db: Db) {
    LogLinked(db.audit, db.reservations.Keys, db.orders.Keys) && ReleasedOnce(db)
  }

  /** From db to d the counters moved exactly as the log says. */
  predicate Traced(db: Db, d: Db) {
    forall t | t in db.types ::
      && t in d.types
      && d.types[t].held - db.types[t].held
         == LoggedHeld(d.audit, d.reservations, t) - LoggedHeld(db.audit, db.reservations, t)
      && d.types[t].sold - db.types[t].sold
         == LoggedSold(d.audit, d.orders, t) - LoggedSold(db.audit, db.orders, t)
  }

  // ---------- the log under growing tables ----------

  lemma {:induction false} LoggedFrame(audit: seq<AuditRow>, db: Db, d: Db, t: Id)
    requires LogLinked(audit, db.reservations.Keys, db.orders.Keys)
    requires ReservationsEvolve(db.reservations, d.reservations) && OrdersEvolve(db.orders, d.orders)
    ensures LoggedHeld(audit, d.reservations, t) == LoggedHeld(audit, db.reservations, t)
    ensures LoggedSold(audit, d.orders, t) == LoggedSold(audit, db.orders, t)
  {
    if audit != [] {
      var n := |audit| - 1;
      assert forall a | a in audit[..n] :: a in audit;
      LoggedFrame(audit[..n], db, d, t);
      assert audit[n] in audit && Linked(audit[n].change, db.reservations.Keys, db.orders.Keys);
    }
  }

  lemma {:induction false} UnknownNeverReleased(audit: seq<AuditRow>, rs: set<Id>, os: set<Id>, r: Id)
    requires LogLinked(audit, rs, os) && r !in rs
    ensures ReleaseCount(audit, r) == 0
  {
    if audit != [] {
      var n := |audit| - 1;
      assert forall a | a in audit[..n] :: a in audit;
      UnknownNeverReleased(audit[..n], rs, os, r);
      assert audit[n] in audit;
    }
  }

  lemma AppendRow(audit: seq<AuditRow>, a: AuditRow, rs: map<Id, Reservation>, os: map<Id, Order>)
    ensures forall t :: LoggedHeld(audit + [a], rs, t) == LoggedHeld(audit, rs, t) + HeldChange(a.change, rs, t)
    ensures forall t :: LoggedSold(audit + [a], os, t) == LoggedSold(audit, os, t) + SoldChange(a.change, os, t)
    ensures forall r :: ReleaseCount(audit + [a], r) == ReleaseCount(audit, r) + if Releases(a.change, r) then 1 else 0
  {
    assert (audit + [a])[..|audit|] == audit;
  }

  /** The counters of d are those of db changed as the row says. */
  predicate CountersFollow(db: Db, d: Db, c: Change) {
    forall t | t in db.types ::
      && t in d.types
      && d.types[t].held == db.types[t].held + HeldChange(c, d.reservations, t)
      && d.types[t].sold == db.types[t].sold + SoldChange(c, d.orders, t)
  }

  /** The reservations that change status are the released ones and the sold one. */
  predicate StatusesFollow(db: Db, d: Db, c: Change) {
    forall r | r in d.reservations ::
      if Releases(c, r) then
        && r in db.reservations && db.reservations[r].status.Active?
        && (d.reservations[r].status.Cancelled? || d.reservations[r].status.Expired?)
      else if r in db.reservations then
        (d.reservations[r].status.Cancelled? || d.reservations[r].status.Expired?) ==
        (db.reservations[r].status.Cancelled? || db.reservations[r].status.Expired?)
      else d.reservations[r].status.Active?
  }

  /** One logged change keeps the trail. */
  lemma RowKeepsTrail(db: Db, d: Db, a: AuditRow)
    requires TrailOk(db) && d.audit == db.audit + [a]
    requires ReservationsEvolve(db.reservations, d.reservations) && OrdersEvolve(db.orders, d.orders)
    requires Linked(a.change, d.reservations.Keys, d.orders.Keys)
    requires CountersFollow(db, d, a.change) && StatusesFollow(db, d, a.change)
    ensures Traced(db, d) && TrailOk(d)
  {
    hide HeldChange, SoldChange, Releases;
    AppendRow(db.audit, a, d.reservations, d.orders);
    forall t ensures LoggedHeld(db.audit, d.reservations, t) == LoggedHeld(db.audit, db.reservations, t)
             ensures LoggedSold(db.audit, d.orders, t) == LoggedSold(db.audit, db.orders, t) {
      LoggedFrame(db.audit, db, d, t);
    }
    forall r | r in d.reservations && r !in db.reservations ensures ReleaseCount(db.audit, r) == 0 {
      UnknownNeverReleased(db.audit, db.reservations.Keys, db.orders.Keys, r);
    }
    LinkedGrows(db, d);
    hide LoggedHeld, LoggedSold, ReleaseCount, Linked;
  }

  lemma LinkedGrows(db: Db, d: Db)
    requires LogLinked(db.audit, db.reservations.Keys, db.orders.Keys)
    requires ReservationsEvolve(db.reservations, d.reservations) && OrdersEvolve(db.orders, d.orders)
    ensures LogLinked(db.audit, d.reservations.Keys, d.orders.Keys)
  {}

  /** Without a log row nothing the trail describes changed. */
  lemma QuietKeepsTrail(db: Db, d: Db)
    requires TrailOk(db) && d.audit == db.audit && d.types == db.types && d.reservations == db.reservations
    requires OrdersEvolve(db.orders, d.orders)
    ensures Traced(db, d) && TrailOk(d)
  {
    hide LoggedHeld, LoggedSold, ReleaseCount;
    forall t ensures LoggedSold(db.audit, d.orders, t) == LoggedSold(db.audit, db.orders, t) {
      LoggedFrame(db.audit, db, d, t);
    }
  }

  lemma TracedTransitive(a: Db, b: Db, c: Db)
    requires Traced(a, b) && Traced(b, c)
    ensures Traced(a, c)
  {
    hide LoggedHeld, LoggedSold;
  }

  // ---------- every service ----------

  lemma CreateTraced(db: Db, q: Request)
    requires Inv(db) && TrailOk(db) && Admissible(db, q) && q.Create?
    ensures Traced(db, CreateReservation(db, q).db) && TrailOk(CreateReservation(db, q).db)
  {
    hide Inv, Constraints, TrailOk, Traced, ReservationsEvolve, OrdersEvolve;
    InvBasics(db);
    CreateEvolves(db, q);
    SameTablesEvolve(db);
    var d := CreateReservation(db, q).db;
    if d == db {
      QuietKeepsTrail(db, d);
    } else {
      RowKeepsTrail(db, d, d.audit[|db.audit|]);
    }
  }

  lemma ReleaseTraced(db: Db, r: Id, status: ReservationStatus, actor: string, c: Change)
    requires Inv(db) && TrailOk(db) && Constraints(db) && r in db.reservations && db.reservations[r].status.Active?
    requires (status.Cancelled? && c == HoldCancelled(r, db.reservations[r].quantity))
             || (status.Expired? && c == HoldExpired(r, db.reservations[r].quantity))
    ensures Traced(db, Release(db, r, status, actor, c)) && TrailOk(Release(db, r, status, actor, c))
  {
    hide Inv, Constraints, TrailOk, Traced, ReservationsEvolve, OrdersEvolve;
    InvBasics(db);
    ReleaseEvolves(db, r, status, actor, c);
    SameTablesEvolve(db);
    RowKeepsTrail(db, Release(db, r, status, actor, c), AuditRow(actor, c));
  }

  lemma CancelTraced(db: Db, q: Request)
    requires Inv(db) && TrailOk(db) && q.Cancel?
    ensures Traced(db, CancelReservation(db, q).db) && TrailOk(CancelReservation(db, q).db)
  {
    hide Inv, Constraints, TrailOk, Traced, Release, Releasable, OrdersEvolve;
    InvBasics(db);
    SameTablesEvolve(db);
    QuietKeepsTrail(db, db);
    if q.reservation in db.reservations && db.reservations[q.reservation].status.Active? {
      ReleaseTraced(db, q.reservation, ReservationStatus.Cancelled, q.user.email,
                    HoldCancelled(q.reservation, db.reservations[q.reservation].quantity));
    }
  }

  lemma {:induction false} SweepTraced(db: Db, now: int, rows: seq<Id>)
    requires Inv(db) && TrailOk(db) && Selection(db, now, rows)
    ensures ExpireRows(db, rows).Some? && Traced(db, ExpireRows(db, rows).value) && TrailOk(ExpireRows(db, rows).value)
  {
    hide Inv, Constraints, TrailOk, Traced, Release, Releasable, OrdersEvolve;
    InvBasics(db);
    SameTablesEvolve(db);
    ExpireRowsKeepsInv(db, now, rows);
    if rows == [] {
      QuietKeepsTrail(db, db);
    } else {
      var n := |rows| - 1;
      assert Selection(db, now, rows[..n]) && rows[n] !in rows[..n] && Stale(db, now, rows[n]);
      ExpireRowsKeepsInv(db, now, rows[..n]);
      SweepTraced(db, now, rows[..n]);
      var d := ExpireRows(db, rows[..n]).value;
      ReleaseTraced(d, rows[n], ReservationStatus.Expired, "system_sweep",
                    HoldExpired(rows[n], d.reservations[rows[n]].quantity));
      TracedTransitive(db, d, ExpireOne(d, rows[n]));
    }
  }

  lemma FulfilTraced(db: Db, p: Request)
    requires Inv(db) && TrailOk(db) && Constraints(db) && p.Purchase? && p.capture.Approved? && p.newOrder !in db.orders
    requires p.reservation in db.reservations && db.reservations[p.reservation].status.Active?
    requires db.reservations[p.reservation].ticketType in db.types
    requires p.key !in db.keyIndex && Mintable(db, p.newTickets)
    ensures Traced(db, Fulfil(db, p, OrderFor(db, p))) && TrailOk(Fulfil(db, p, OrderFor(db, p)))
  {
    hide Inv, Constraints, TrailOk, Traced, ReservationsEvolve, OrdersEvolve, WithTickets, AmountDue, PaymentId;
    var o := OrderFor(db, p);
    var d := Fulfil(db, p, o);
    FulfilEvolves(db, p, o);
    RowKeepsTrail(db, d, d.audit[|db.audit|]);
  }

  lemma PurchaseTraced(db: Db, p: Request)
    requires Inv(db) && TrailOk(db) && Admissible(db, p) && p.Purchase?
    ensures Traced(db, ProcessPurchase(db, p).db) && TrailOk(ProcessPurchase(db, p).db)
  {
    hide Inv, Constraints, TrailOk, Traced, ReservationsEvolve, OrdersEvolve, Fulfil, OrderFits, TypeFits, Mintable;
    InvBasics(db);
    SameTablesEvolve(db);
    QuietKeepsTrail(db, db);
    PurchaseEvolves(db, p);
    var d := ProcessPurchase(db, p).db;
    if p.key in db.keyIndex {
      CollisionTraced(db, p);
    } else if p.reservation in db.reservations && db.reservations[p.reservation].status.Active?
              && p.newOrder !in db.orders {
      if p.capture.Declined? {
        OrderWriteEvolves(db.orders, p.newOrder, OrderFor(db, p).(status := OrderStatus.Failed));
        QuietKeepsTrail(db, WithOrder(db, p.newOrder, OrderFor(db, p).(status := OrderStatus.Failed)));
      } else if Mintable(db, p.newTickets) {
        FulfilTraced(db, p);
      }
    }
  }

  lemma CollisionTraced(db: Db, p: Request)
    requires TrailOk(db) && p.Purchase? && p.key in db.keyIndex
    ensures Traced(db, Collision(db, p).db) && TrailOk(Collision(db, p).db)
  {
    hide TrailOk, Traced, ReservationsEvolve, OrdersEvolve;
    SameTablesEvolve(db);
    var d := Collision(db, p).db;
    RowKeepsTrail(db, d, d.audit[|db.audit|]);
  }

  lemma RefundingTraced(db: Db, f: Request, targets: set<Id>)
    requires Inv(db) && TrailOk(db) && Constraints(db) && f.IssueRefund? && f.gateway.Approved?
    requires f.order in db.orders && db.orders[f.order].ticketType in db.types && f.newRefund !in db.refunds
    requires db.orders[f.order].status.Confirmed? || db.orders[f.order].status.PartiallyRefunded?
    ensures Traced(db, Refunding(db, f, targets)) && TrailOk(Refunding(db, f, targets))
  {
    hide Inv, Constraints, TrailOk, Traced, ReservationsEvolve, OrdersEvolve, UnitCharge, MarkRefunded, ActiveTickets;
    RefundingEvolves(db, f, targets);
    SameTablesEvolve(db);
    var d := Refunding(db, f, targets);
    RowKeepsTrail(db, d, d.audit[|db.audit|]);
  }

  lemma RefundTraced(db: Db, f: Request)
    requires Inv(db) && TrailOk(db) && Admissible(db, f) && f.IssueRefund?
    ensures Traced(db, RefundOrder(db, f).db) && TrailOk(RefundOrder(db, f).db)
  {
    hide Inv, Constraints, TrailOk, Traced, ReservationsEvolve, OrdersEvolve, TypeFits, UnitCharge, RefundTargets,
         Refunding;
    InvBasics(db);
    SameTablesEvolve(db);
    QuietKeepsTrail(db, db);
    if RefundOrder(db, f).db != db {
      RefundingTraced(db, f, RefundTargets(db, f));
    }
  }

  lemma ApplyTraced(db: Db, q: Request)
    requires Inv(db) && TrailOk(db) && Admissible(db, q)
    ensures Traced(db, Apply(db, q).db) && TrailOk(Apply(db, q).db)
  {
    hide Inv, Constraints, TrailOk, Traced, CreateReservation, CancelReservation, ProcessPurchase, RefundOrder,
         OrdersEvolve;
    match q
    case Create(_, _, _, _, _) => CreateTraced(db, q);
    case Cancel(_, _) => CancelTraced(db, q);
    case Purchase(_, _, _, _, _, _, _, _, _) => PurchaseTraced(db, q);
    case IssueRefund(_, _, _, _, _, _) => RefundTraced(db, q);
    case Sweep(now, rows) => SweepTraced(db, now, rows);
    case SetPaused(_, _) =>
      InvBasics(db);
      SameTablesEvolve(db);
      QuietKeepsTrail(db, Apply(db, q).db);
  }

  lemma {:induction false} RunTraced(db: Db, log: seq<Entry>)
    requires Inv(db) && TrailOk(db) && Replay(db, log).Some?
    ensures Traced(db, Replay(db, log).value) && TrailOk(Replay(db, log).value)
  {
    hide Inv, TrailOk, Traced, Apply, Admissible, OrdersEvolve;
    if log == [] {
      SameTablesEvolve(db);
      QuietKeepsTrail(db, db);
    } else {
      var n := |log| - 1;
      RunTraced(db, log[..n]);
      var d := Replay(db, log[..n]).value;
      ApplyTraced(d, log[n].request);
      TracedTransitive(db, d, Replay(db, log).value);
    }
  }

  /** In every reachable database the audit log alone determines both counters. */
  lemma LogReconstructsCounters(init: Db, log: seq<Entry>, t: Id)
    requires Pristine(init) && Replay(init, log).Some? && t in init.types
    ensures var d := Replay(init, log).value;
            && t in d.types
            && d.types[t].held == LoggedHeld(d.audit, d.reservations, t)
            && d.types[t].sold == LoggedSold(d.audit, d.orders, t)
  {
    hide Inv, TrailOk, LoggedHeld, LoggedSold, Replay;
    PristineIsEmpty(init);
    RunTraced(init, log);
  }

  /** No hold is ever released twice, by whatever mixture of cancels and sweeps: a reservation
      is recorded as released exactly when it ended CANCELLED or EXPIRED, and then once. */
  lemma ReleasedAtMostOnce(init: Db, log: seq<Entry>, r: Id)
    requires Pristine(init) && Replay(init, log).Some?
    ensures var d := Replay(init, log).value;
            ReleaseCount(d.audit, r) ==
            if r in d.reservations && (d.reservations[r].status.Cancelled? || d.reservations[r].status.Expired?) then 1
            else 0
  {
    hide Inv, LoggedHeld, LoggedSold, ReleaseCount, Replay;
    PristineIsEmpty(init);
    RunTraced(init, log);
    var d := Replay(init, log).value;
    if r !in d.reservations {
      UnknownNeverReleased(d.audit, d.reservations.Keys, d.orders.Keys, r);
    }
  }

  lemma PristineIsEmpty(init: Db)
    requires Pristine(init)
    ensures TrailOk(init)
    ensures forall t | t in init.types :: init.types[t].held == 0 && init.types[t].sold == 0
    ensures forall t :: LoggedHeld(init.audit, init.reservations, t) == 0 && LoggedSold(init.audit, init.orders, t) == 0
  {
    hide OrdersOk, OrdersMatch, ReservationsOk, KeysUnique, OrdersLinked;
    forall t | t in init.types ensures init.types[t].held == 0 && init.types[t].sold == 0 {
      assert SoldTickets(init.tickets, init.orders, t) == {};
    }
  }
}

/** The pause switch: while an event's sales are paused its inventory can only shrink, and the
    operations that shrink it do not look at the switch. */
module Pausing {
  import opened Sums
  import opened Schema
  import opened Services
  import opened Invariants
  import opened Runs
  import opened Sweeps

  predicate SalesOff(db: Db, e: Id) {
    e in db.events && db.events[e].salesPaused
  }

  /** No counter of the event's types grew. */
  predicate OnlyShrank(before: map<Id, TicketType>, after: map<Id, TicketType>, e: Id) {
    forall t | t in before && before[t].event == e ::
      && t in after && after[t].event == e
      && after[t].sold <= before[t].sold && after[t].held <= before[t].held
  }

  lemma ShrankTransitive(a: map<Id, TicketType>, b: map<Id, TicketType>, c: map<Id, TicketType>, e: Id)
    requires OnlyShrank(a, b, e) && OnlyShrank(b, c, e)
    ensures OnlyShrank(a, c, e)
  {}

  lemma MoveShrinks(types: map<Id, TicketType>, t: Id, sold: int, held: int, e: Id)
    requires t in types && (types[t].event == e ==> sold <= 0 && held <= 0)
    ensures OnlyShrank(types, types[t := Move(types[t], sold, held)], e)
  {}

  lemma NothingGrew(types: map<Id, TicketType>, e: Id)
    ensures OnlyShrank(types, types, e)
  {}

  lemma {:induction false} SweepShrinks(db: Db, now: int, rows: seq<Id>, e: Id)
    requires Inv(db) && Constraints(db) && Selection(db, now, rows)
    ensures OnlyShrank(db.types, SweepExpired(db, Sweep(now, rows)).db.types, e)
  {
    hide Inv, Constraints, Total, Expiries, SweptReservations;
    LoopReachesClosedForm(db, now, rows);
    forall t | t in db.types ensures Total(Members(rows), QuantityFor(db.reservations, t)) >= 0 {
      forall r | r in db.reservations ensures db.reservations[r].quantity >= 1 {
        TypeKnown(db, r);
      }
      TotalBounds(Members(rows), QuantityFor(db.reservations, t));
    }
  }

  lemma PurchaseShrinks(db: Db, p: Request, e: Id)
    requires Inv(db) && Constraints(db) && Admissible(db, p) && p.Purchase? && SalesOff(db, e)
    ensures OnlyShrank(db.types, ProcessPurchase(db, p).db.types, e)
    ensures ProcessPurchase(db, p).db.events == db.events
  {
    hide Inv, Constraints, OnlyShrank, TypeFits, OrderFits, WithTickets, Mintable;
    NothingGrew(db.types, e);
    if p.reservation in db.reservations {
      TypeKnown(db, p.reservation);
      var row := db.reservations[p.reservation];
      if db.types[row.ticketType].event != e {
        MoveShrinks(db.types, row.ticketType, row.quantity, -row.quantity, e);
      }
    }
  }

  lemma CreateShrinks(db: Db, q: Request, e: Id)
    requires Inv(db) && Constraints(db) && Admissible(db, q) && q.Create? && SalesOff(db, e)
    ensures OnlyShrank(db.types, CreateReservation(db, q).db.types, e)
    ensures CreateReservation(db, q).db.events == db.events
  {
    hide Inv, Constraints, OnlyShrank;
    NothingGrew(db.types, e);
    if q.ticketType in db.types && db.types[q.ticketType].event != e {
      MoveShrinks(db.types, q.ticketType, 0, q.quantity, e);
    }
  }

  lemma CancelShrinks(db: Db, q: Request, e: Id)
    requires Inv(db) && Constraints(db) && q.Cancel?
    ensures OnlyShrank(db.types, CancelReservation(db, q).db.types, e)
    ensures CancelReservation(db, q).db.events == db.events
  {
    hide Inv, Constraints, OnlyShrank;
    NothingGrew(db.types, e);
    if q.reservation in db.reservations {
      TypeKnown(db, q.reservation);
      var row := db.reservations[q.reservation];
      MoveShrinks(db.types, row.ticketType, 0, -row.quantity, e);
    }
  }

  lemma RefundShrinks(db: Db, f: Request, e: Id)
    requires Inv(db) && Constraints(db) && f.IssueRefund?
    ensures OnlyShrank(db.types, RefundOrder(db, f).db.types, e)
    ensures RefundOrder(db, f).db.events == db.events
  {
    hide Inv, Constraints, OnlyShrank, UnitCharge, TypeFits, RefundTargets, MarkRefunded;
    NothingGrew(db.types, e);
    if f.order in db.orders {
      InvBasics(db);
      MoveShrinks(db.types, db.orders[f.order].ticketType, -|RefundTargets(db, f)|, 0, e);
    }
  }

  /** One request other than the resume itself. */
  lemma PausedStepShrinks(db: Db, q: Request, e: Id)
    requires Inv(db) && Constraints(db) && Admissible(db, q) && SalesOff(db, e) && q != SetPaused(e, false)
    ensures OnlyShrank(db.types, Apply(db, q).db.types, e) && SalesOff(Apply(db, q).db, e)
  {
    hide Inv, Constraints, OnlyShrank, CreateReservation, CancelReservation, ProcessPurchase, RefundOrder;
    match q
    case Create(_, _, _, _, _) => CreateShrinks(db, q, e);
    case Cancel(_, _) => CancelShrinks(db, q, e);
    case Purchase(_, _, _, _, _, _, _, _, _) => PurchaseShrinks(db, q, e);
    case IssueRefund(_, _, _, _, _, _) => RefundShrinks(db, q, e);
    case Sweep(now, rows) =>
      SweepShrinks(db, now, rows, e);
      ExpireRowsEvents(db, now, rows);
    case SetPaused(_, _) => NothingGrew(db.types, e);
  }

  lemma ExpireRowsEvents(db: Db, now: int, rows: seq<Id>)
    requires Inv(db) && Constraints(db) && Selection(db, now, rows)
    ensures SweepExpired(db, Sweep(now, rows)).db.events == db.events
  {
    hide Inv, Constraints;
    LoopReachesClosedForm(db, now, rows);
  }

  predicate NeverResumed(log: seq<Entry>, e: Id) {
    forall i | 0 <= i < |log| :: log[i].request != SetPaused(e, false)
  }

  /** Along every run during which the event stays paused, `sold` and `held` of each of its
      ticket types never increase. */
  lemma {:induction false} PausedRunShrinks(db: Db, log: seq<Entry>, e: Id)
    requires Inv(db) && SalesOff(db, e) && NeverResumed(log, e) && Replay(db, log).Some?
    ensures OnlyShrank(db.types, Replay(db, log).value.types, e) && SalesOff(Replay(db, log).value, e)
  {
    hide Inv, OnlyShrank, Apply, Admissible, SalesOff;
    if log == [] {
      NothingGrew(db.types, e);
    } else {
      var n := |log| - 1;
      PausedRunShrinks(db, log[..n], e);
      var d := Replay(db, log[..n]).value;
      InvBasics(d);
      PausedStepShrinks(d, log[n].request, e);
      ShrankTransitive(db.types, d.types, Replay(db, log).value.types, e);
    }
  }

  // ---------- what pausing leaves possible ----------

  /** Requests that never look at the switch: cancels, refunds, sweeps, and purchases whose key
      is found already used. */
  predicate IgnoresPause(db: Db, q: Request) {
    q.Cancel? || q.IssueRefund? || q.Sweep? || (q.Purchase? && q.key in db.keyIndex && !q.late)
  }

  /** The same database with other events rows, such as a paused event. */
  predicate SameButEvents(db: Db, d: Db) {
    d.events.Keys == db.events.Keys && d == db.(events := d.events)
  }

  lemma {:induction false} SweepIgnoresPause(db: Db, d: Db, rows: seq<Id>)
    requires Constraints(db) && Constraints(d) && SameButEvents(db, d)
    requires (forall r | r in rows :: r in db.reservations) && forall r | r in rows :: r in d.reservations
    ensures ExpireRows(db, rows).Some? == ExpireRows(d, rows).Some?
    ensures ExpireRows(db, rows).Some? ==> SameButEvents(ExpireRows(db, rows).value, ExpireRows(d, rows).value)
  {
    hide Constraints, Releasable, ExpireOne, SameButEvents;
    if rows != [] {
      var n := |rows| - 1;
      SweepIgnoresPause(db, d, rows[..n]);
      if ExpireRows(db, rows[..n]).Some? {
        ExpiryIgnoresPause(ExpireRows(db, rows[..n]).value, ExpireRows(d, rows[..n]).value, rows[n]);
      }
    }
  }

  lemma ExpiryIgnoresPause(db: Db, d: Db, r: Id)
    requires Constraints(db) && Constraints(d) && SameButEvents(db, d) && r in db.reservations
    ensures r in d.reservations && (Releasable(db, r) <==> Releasable(d, r))
    ensures SameButEvents(ExpireOne(db, r), ExpireOne(d, r))
  {
    hide Constraints, TypeFits;
  }

  lemma RefundIgnoresPause(db: Db, d: Db, f: Request)
    requires Constraints(db) && Constraints(d) && SameButEvents(db, d) && f.IssueRefund?
    ensures RefundOrder(d, f).reply == RefundOrder(db, f).reply
    ensures SameButEvents(RefundOrder(db, f).db, RefundOrder(d, f).db)
  {
    hide Constraints, TypeFits, UnitCharge, RefundTargets, MarkRefunded, OnlyMember;
    SameTargets(db, d, f);
  }

  lemma SameTargets(db: Db, d: Db, f: Request)
    requires f.IssueRefund? && d.tickets == db.tickets
    ensures RefundTargets(d, f) == RefundTargets(db, f)
  {}

  lemma CancelIgnoresPause(db: Db, d: Db, c: Request)
    requires Constraints(db) && Constraints(d) && SameButEvents(db, d) && c.Cancel?
    ensures CancelReservation(d, c).reply == CancelReservation(db, c).reply
    ensures SameButEvents(CancelReservation(db, c).db, CancelReservation(d, c).db)
  {
    hide Constraints, TypeFits;
  }

  /** Such a request is answered and carried out exactly as if nothing were paused. */
  lemma PauseChangesNothing(db: Db, d: Db, q: Request)
    requires Constraints(db) && Constraints(d) && SameButEvents(db, d) && IgnoresPause(db, q)
    requires Admissible(db, q) && Admissible(d, q)
    ensures Apply(d, q).reply == Apply(db, q).reply
    ensures SameButEvents(Apply(db, q).db, Apply(d, q).db)
  {
    hide Constraints, RefundOrder, CancelReservation;
    match q
    case Cancel(_, _) => CancelIgnoresPause(db, d, q);
    case IssueRefund(_, _, _, _, _, _) => RefundIgnoresPause(db, d, q);
    case Sweep(_, rows) => SweepIgnoresPause(db, d, rows);
    case Purchase(_, _, _, _, _, _, _, _, _) =>
  }
}

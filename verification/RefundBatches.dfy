/** Refunding an order in pieces: any batches that together name every ACTIVE ticket end where
    one full refund ends, and exactly which refunds the code can make at all. */
module RefundBatches {
  import opened Sums
  import opened Schema
  import opened Services
  import opened Invariants
  import opened Preservation
  import opened Runs

  // ---------- when one refund succeeds ----------

  lemma ActiveMeansRefundable(db: Db, o: Id)
    requires Inv(db) && o in db.orders && ActiveTickets(db.tickets, o) != {}
    ensures !db.orders[o].status.Refunded? && !db.orders[o].status.Failed?
  {
    hide Constraints, CountersExact, OrdersMatch, ReservationsOk;
    assert BooksOk(db.orders[o], TallyOf(db.tickets, db.refunds, o));
    TallyActive(db.tickets, db.refunds, o);
    assert TallyOf(db.tickets, db.refunds, o).active <= TallyOf(db.tickets, db.refunds, o).tickets;
  }

  /** What the caller can check before asking: the order is theirs, the request names an ACTIVE
      ticket of it, the provider agrees, and the amount is a positive 32-bit number. */
  predicate WillRefund(db: Db, f: Request)
    requires f.IssueRefund? && Constraints(db)
  {
    && MayRefund(db, f) && f.gateway.Approved? && f.newRefund !in db.refunds
    && RefundTargets(db, f) != {}
    && 0 < UnitCharge(db.orders[f.order]) * |RefundTargets(db, f)| <= MAX_INT
  }

  /** A refund succeeds exactly under that condition; otherwise nothing changes. */
  lemma RefundSucceedsIff(db: Db, f: Request)
    requires Inv(db) && Constraints(db) && f.IssueRefund?
    ensures RefundOrder(db, f).reply.RefundReply? <==> WillRefund(db, f)
    ensures WillRefund(db, f) ==> RefundOrder(db, f).db == Refunding(db, f, RefundTargets(db, f))
    ensures !WillRefund(db, f) ==> RefundOrder(db, f).db == db
  {
    hide Inv, Constraints, RefundTargets, UnitCharge, TypeFits, ActiveTickets, Refunding;
    InvBasics(db);
    if f.order in db.orders && RefundTargets(db, f) != {} {
      TargetsActive(db, f);
      ActiveMeansRefundable(db, f.order);
      if WillRefund(db, f) {
        OrderKnown(db, f.order);
        RefundMoveFits(db, f);
      }
    }
  }

  /** d has one new refund row, f's: its amount is the unit charge of the targets, and it points
      at a ticket exactly when ids were given and one ticket was refunded. */
  predicate Recorded(db: Db, f: Request, targets: set<Id>, d: Db)
    requires f.IssueRefund? && f.gateway.Approved? && f.order in db.orders && db.orders[f.order].quantity >= 1
  {
    && f.newRefund in d.refunds && d.refunds == db.refunds[f.newRefund := d.refunds[f.newRefund]]
    && var row := d.refunds[f.newRefund];
    && row.order == f.order && row.amount == UnitCharge(db.orders[f.order]) * |targets|
    && row.paymentId == (if f.gateway.paymentId == "" then "unknown" else f.gateway.paymentId)
    && (row.ticket.Some? <==> f.ticketIds != [] && |targets| == 1)
    && (row.ticket.Some? ==> targets == {row.ticket.value})
    && f.order in d.orders
    && d.audit == db.audit + [AuditRow(f.actor, RefundIssued(f.newRefund, f.order, row.amount, |targets|,
                                                             d.orders[f.order].status))]
  }

  lemma RefundRecorded(db: Db, f: Request)
    requires f.IssueRefund? && Constraints(db) && WillRefund(db, f) && Inv(db)
    ensures Recorded(db, f, RefundTargets(db, f), RefundOrder(db, f).db)
  {
    hide Inv, Constraints, RefundTargets, UnitCharge, TypeFits, MarkRefunded, StatusAfter, ActiveTickets, RefundOrder;
    RefundSucceedsIff(db, f);
    if |RefundTargets(db, f)| == 1 {
      var s := RefundTargets(db, f);
      var t := Least(s);
      SubsetSize({t}, s);
    }
  }

  // ---------- what a set of refunded tickets means ----------

  /** d is db after the tickets T of order o were refunded, in whatever batches. */
  ghost predicate RefundedSet(db: Db, o: Id, T: set<Id>, d: Db)
    requires o in db.orders && db.orders[o].ticketType in db.types && db.orders[o].quantity >= 1
  {
    var tt := db.orders[o].ticketType;
    && T <= ActiveTickets(db.tickets, o)
    && d.tickets == MarkRefunded(db.tickets, T)
    && d.types == db.types[tt := Move(db.types[tt], -|T|, 0)]
    && d.orders == db.orders[o :=
         db.orders[o].(status := if T == {} then db.orders[o].status else StatusAfter(db, o, T))]
    && RefundedCents(d.refunds, o) == RefundedCents(db.refunds, o) + UnitCharge(db.orders[o]) * |T|
    && d.reservations == db.reservations && d.events == db.events && d.keyIndex == db.keyIndex
  }

  lemma MarkNone(ts: map<Id, Ticket>)
    ensures MarkRefunded(ts, {}) == ts
  {}

  lemma MarkTwice(ts: map<Id, Ticket>, T: set<Id>, U: set<Id>)
    ensures MarkRefunded(MarkRefunded(ts, T), U) == MarkRefunded(ts, T + U)
  {}

  lemma StillActive(ts: map<Id, Ticket>, o: Id, T: set<Id>)
    requires T <= ActiveTickets(ts, o)
    ensures ActiveTickets(MarkRefunded(ts, T), o) == ActiveTickets(ts, o) - T
  {}

  lemma NothingRefunded(db: Db, o: Id)
    requires o in db.orders && db.orders[o].ticketType in db.types && db.orders[o].quantity >= 1
    ensures RefundedSet(db, o, {}, db)
  {
    hide ActiveTickets, MarkRefunded, UnitCharge, RefundedCents;
    MarkNone(db.tickets);
  }

  /** Two refunds in a row are one refund of both sets. */
  lemma RefundedSetsJoin(db: Db, o: Id, T: set<Id>, d: Db, U: set<Id>, e: Db)
    requires o in db.orders && db.orders[o].ticketType in db.types && db.orders[o].quantity >= 1
    requires RefundedSet(db, o, T, d) && RefundedSet(d, o, U, e)
    ensures RefundedSet(db, o, T + U, e)
  {
    hide ActiveTickets, MarkRefunded, RefundedCents, UnitCharge, StatusAfter, Move;
    var row, tt := db.orders[o], db.orders[o].ticketType;
    MarkTwice(db.tickets, T, U);
    StillActive(db.tickets, o, T);
    UnionSize(T + U, T, U);
    MoveTwice(db.types, tt, |T|, |U|);
    ChargeKept(row, d.orders[o]);
    Distribute(|T|, |U|, 0, UnitCharge(row));
    StatusJoins(db, o, T, d, U);
    OverwriteRow(db.orders, o, d.orders[o], e.orders[o]);
  }

  lemma MoveTwice(types: map<Id, TicketType>, t: Id, m: int, n: int)
    requires t in types
    ensures var once := types[t := Move(types[t], -m, 0)];
            once[t := Move(once[t], -n, 0)] == types[t := Move(types[t], -(m + n), 0)]
  {}

  lemma StatusJoins(db: Db, o: Id, T: set<Id>, d: Db, U: set<Id>)
    requires ActiveTickets(d.tickets, o) == ActiveTickets(db.tickets, o) - T && U <= ActiveTickets(d.tickets, o)
    ensures StatusAfter(d, o, U) == StatusAfter(db, o, T + U) && (U == {} ==> T + U == T)
  {
    assert ActiveTickets(d.tickets, o) - U == ActiveTickets(db.tickets, o) - (T + U);
  }

  lemma OneRefundedSet(db: Db, f: Request)
    requires Inv(db) && Constraints(db) && f.IssueRefund? && WillRefund(db, f)
    requires db.orders[f.order].ticketType in db.types && db.orders[f.order].quantity >= 1
    ensures RefundedSet(db, f.order, RefundTargets(db, f), RefundOrder(db, f).db)
    ensures RefundOrder(db, f).db.refunds.Keys == db.refunds.Keys + {f.newRefund}
  {
    hide Inv, Constraints, RefundTargets, ActiveTickets, MarkRefunded, UnitCharge, RefundedCents, OnlyMember,
         RefundOrder;
    RefundSucceedsIff(db, f);
    TargetsActive(db, f);
    var d := Refunding(db, f, RefundTargets(db, f));
    RefundCents(db.refunds, f.newRefund, d.refunds[f.newRefund], f.order);
  }

  // ---------- batches ----------

  /** One request after another. */
  ghost function Batches(db: Db, fs: seq<Request>): (d: Db)
    requires Inv(db) && forall f | f in fs :: f.IssueRefund?
    ensures Inv(d)
  {
    if fs == [] then db
    else
      var n := |fs| - 1;
      assert fs[n] in fs;
      var d := Batches(db, fs[..n]);
      RefundOrderKeepsInv(d, fs[n]);
      RefundOrder(d, fs[n]).db
  }

  /** Requests for one order that the service lets through to the provider and that it accepts. */
  predicate Accepted(db: Db, o: Id, f: Request) {
    f.IssueRefund? && f.order == o && f.gateway.Approved? && MayRefund(db, f)
  }

  predicate NamedBy(fs: seq<Request>, t: Id)
    requires forall f | f in fs :: f.IssueRefund?
  {
    exists f | f in fs :: f.ticketIds == [] || t in f.ticketIds
  }

  /** The ACTIVE tickets of o that some batch names; duplicate, foreign, unknown and already
      refunded ids add nothing. */
  function Asked(db: Db, o: Id, fs: seq<Request>): set<Id>
    requires forall f | f in fs :: f.IssueRefund?
  {
    set t | t in ActiveTickets(db.tickets, o) && NamedBy(fs, t)
  }

  predicate FreshRefunds(db: Db, fs: seq<Request>)
    requires forall f | f in fs :: f.IssueRefund?
  {
    && (forall i | 0 <= i < |fs| :: fs[i].newRefund !in db.refunds)
    && (forall i, j | 0 <= i < j < |fs| :: fs[i].newRefund != fs[j].newRefund)
  }

  /** The order charges something and no batch on its own asks for more than a 32-bit amount. */
  predicate Affordable(db: Db, o: Id, fs: seq<Request>)
    requires (forall f | f in fs :: f.IssueRefund?) && o in db.orders && db.orders[o].quantity >= 1
  {
    UnitCharge(db.orders[o]) >= 1 && forall f | f in fs :: UnitCharge(db.orders[o]) * |RefundTargets(db, f)| <= MAX_INT
  }

  /** Requests for one order, each with a refund id of its own. */
  predicate RefundRun(db: Db, o: Id, fs: seq<Request>) {
    && (forall f | f in fs :: Accepted(db, o, f))
    && o in db.orders && db.orders[o].ticketType in db.types && db.orders[o].quantity >= 1
    && FreshRefunds(db, fs)
  }

  lemma AskedGrows(db: Db, o: Id, fs: seq<Request>, f: Request)
    requires (forall g | g in fs :: g.IssueRefund?) && f.IssueRefund? && f.order == o
    ensures Asked(db, o, fs + [f]) == Asked(db, o, fs) + RefundTargets(db, f)
  {
    var all := fs + [f];
    forall t ensures NamedBy(all, t) <==> NamedBy(fs, t) || f.ticketIds == [] || t in f.ticketIds {
      assert forall g | g in all :: g in fs || g == f;
      assert f in all && forall g | g in fs :: g in all;
    }
  }

  lemma TargetsLeft(db: Db, d: Db, f: Request, T: set<Id>)
    requires f.IssueRefund? && T <= ActiveTickets(db.tickets, f.order) && d.tickets == MarkRefunded(db.tickets, T)
    ensures RefundTargets(d, f) == RefundTargets(db, f) - T
  {
    StillActive(db.tickets, f.order, T);
  }

  lemma AmountMonotone(unit: int, a: set<Id>, b: set<Id>)
    requires unit >= 1 && a <= b
    ensures unit * |a| <= unit * |b| && (a != {} ==> unit * |a| > 0)
  {
    SubsetSize(a, b);
    Monotone(unit, |a|, |b|);
  }

  lemma Monotone(unit: int, m: nat, n: nat)
    requires unit >= 1 && m <= n
    ensures unit * m <= unit * n && (m > 0 ==> unit * m > 0)
  {
    Distribute(m, n - m, 0, unit);
  }

  /** The next batch refunds what it names and is still ACTIVE. */
  lemma NextBatch(db: Db, d: Db, f: Request, T: set<Id>)
    requires Inv(db) && Inv(d) && Constraints(d) && f.IssueRefund? && Accepted(db, f.order, f)
    requires db.orders[f.order].ticketType in db.types && db.orders[f.order].quantity >= 1
    requires RefundedSet(db, f.order, T, d) && f.newRefund !in d.refunds
    requires UnitCharge(db.orders[f.order]) >= 1
    requires UnitCharge(db.orders[f.order]) * |RefundTargets(db, f)| <= MAX_INT
    ensures RefundedSet(db, f.order, T + RefundTargets(db, f), RefundOrder(d, f).db)
    ensures RefundOrder(d, f).db.refunds.Keys <= d.refunds.Keys + {f.newRefund}
  {
    hide Inv, Constraints, RefundTargets, ActiveTickets, MarkRefunded, RefundedCents, RefundOrder, UnitCharge;
    var o, U := f.order, RefundTargets(db, f) - T;
    TargetsLeft(db, d, f, T);
    ChargeKept(db.orders[o], d.orders[o]);
    AmountMonotone(UnitCharge(db.orders[o]), U, RefundTargets(db, f));
    RefundSucceedsIff(d, f);
    hide StatusAfter;
    assert T + RefundTargets(db, f) == T + U;
    if U != {} {
      OneRefundedSet(d, f);
      RefundedSetsJoin(db, o, T, d, U, RefundOrder(d, f).db);
    } else {
      assert T + U == T;
    }
  }

  lemma ChargeKept(o: Order, row: Order)
    requires o.quantity >= 1 && row == o.(status := row.status)
    ensures row.quantity >= 1 && UnitCharge(row) == UnitCharge(o)
  {}

  lemma {:induction false} BatchesUseTheirIds(db: Db, fs: seq<Request>)
    requires (forall f | f in fs :: f.IssueRefund?) && Inv(db)
    ensures forall k | k in Batches(db, fs).refunds ::
              k in db.refunds || exists i :: 0 <= i < |fs| && fs[i].newRefund == k
  {
    hide Inv, Constraints, UnitCharge, RefundTargets, MayRefund, StatusAfter, MarkRefunded;
    if fs != [] {
      var n := |fs| - 1;
      assert forall f | f in fs[..n] :: f in fs;
      BatchesUseTheirIds(db, fs[..n]);
      assert fs[n] in fs;
      InvBasics(Batches(db, fs[..n]));
    }
  }

  /** Whatever the batches, the outcome depends only on the set of tickets they name. */
  lemma {:induction false} BatchesRefundWhatTheyName(db: Db, o: Id, fs: seq<Request>)
    requires RefundRun(db, o, fs) && Affordable(db, o, fs) && Inv(db)
    ensures RefundedSet(db, o, Asked(db, o, fs), Batches(db, fs))
  {
    hide Inv, Constraints, RefundedSet, UnitCharge, RefundOrder, RefundTargets, MayRefund;
    if fs == [] {
      NothingRefunded(db, o);
      assert Asked(db, o, fs) == {};
    } else {
      var n := |fs| - 1;
      assert forall f | f in fs[..n] :: f in fs;
      var d := Batches(db, fs[..n]);
      BatchesRefundWhatTheyName(db, o, fs[..n]);
      BatchesUseTheirIds(db, fs[..n]);
      assert fs[n] in fs && fs == fs[..n] + [fs[n]];
      AskedGrows(db, o, fs[..n], fs[n]);
      InvBasics(d);
      NextBatch(db, d, fs[n], Asked(db, o, fs[..n]));
    }
  }

  /** Together the batches name every ACTIVE ticket. */
  predicate Covering(db: Db, o: Id, fs: seq<Request>)
    requires forall f | f in fs :: f.IssueRefund?
  {
    forall t | t in ActiveTickets(db.tickets, o) :: NamedBy(fs, t)
  }

  /** Batches that cover the order refund all of it: every ticket, the whole remaining charge,
      status REFUNDED. */
  lemma CoveringBatchesRefundAll(db: Db, o: Id, fs: seq<Request>)
    requires RefundRun(db, o, fs) && Affordable(db, o, fs) && Inv(db)
    requires Covering(db, o, fs)
    ensures RefundedSet(db, o, ActiveTickets(db.tickets, o), Batches(db, fs))
  {
    hide Inv, RefundedSet, UnitCharge, RefundTargets, MayRefund;
    BatchesRefundWhatTheyName(db, o, fs);
    assert Asked(db, o, fs) == ActiveTickets(db.tickets, o);
  }

  /** The same tickets, orders, counters and refunded total for order o. */
  predicate SameEnd(a: Db, b: Db, o: Id) {
    && a.tickets == b.tickets && a.orders == b.orders && a.types == b.types
    && RefundedCents(a.refunds, o) == RefundedCents(b.refunds, o)
    && o in a.orders && a.orders[o].status.Refunded?
  }

  /** Any covering batches end where one full refund that the code accepts ends. */
  lemma BatchesEqualFullRefund(db: Db, o: Id, fs: seq<Request>, full: Request)
    requires RefundRun(db, o, fs) && Covering(db, o, fs)
    requires full.IssueRefund? && full.order == o && full.ticketIds == []
    requires Constraints(db) && WillRefund(db, full)
    requires Inv(db)
    ensures SameEnd(Batches(db, fs), RefundOrder(db, full).db, o)
  {
    hide Inv, Constraints, UnitCharge, MayRefund, RefundedCents, MarkRefunded, RefundOrder;
    var all := ActiveTickets(db.tickets, o);
    assert RefundTargets(db, full) == all;
    PositiveFactor(UnitCharge(db.orders[o]), |all|);
    forall f | f in fs ensures UnitCharge(db.orders[o]) * |RefundTargets(db, f)| <= MAX_INT {
      AmountMonotone(UnitCharge(db.orders[o]), RefundTargets(db, f), all);
    }
    CoveringBatchesRefundAll(db, o, fs);
    OneRefundedSet(db, full);
  }

  lemma PositiveFactor(unit: int, n: nat)
    requires unit * n > 0
    ensures unit >= 1 && n >= 1
  {
    if unit <= 0 {
      Distribute(-unit, unit, 0, n);
    }
  }

  // ---------- which orders can be refunded at all ----------

  /** The unit charge of the order is a positive 32-bit amount. */
  predicate ChargeFits(o: Order)
    requires o.quantity >= 1
  {
    0 < UnitCharge(o) <= MAX_INT
  }

  /** Outside that range no refund request whatsoever succeeds. */
  lemma NothingOutsideSucceeds(db: Db, f: Request)
    requires f.IssueRefund? && f.order in db.orders && db.orders[f.order].quantity >= 1
    requires !ChargeFits(db.orders[f.order]) && Constraints(db) && Inv(db)
    ensures !WillRefund(db, f) && RefundOrder(db, f).db == db && !RefundOrder(db, f).reply.RefundReply?
  {
    hide Inv, Constraints, RefundTargets, UnitCharge, RefundOrder;
    RefundSucceedsIff(db, f);
    if WillRefund(db, f) {
      var unit, n := UnitCharge(db.orders[f.order]), |RefundTargets(db, f)|;
      PositiveFactor(unit, n);
      Monotone(unit, 1, n);
    }
  }

  /** Inside it every ACTIVE ticket can be refunded on its own. */
  lemma OneTicketSucceeds(db: Db, f: Request, t: Id)
    requires f.IssueRefund? && f.order in db.orders && db.orders[f.order].quantity >= 1
    requires MayRefund(db, f) && f.gateway.Approved? && f.newRefund !in db.refunds
    requires t in ActiveTickets(db.tickets, f.order) && f.ticketIds == [t]
    requires ChargeFits(db.orders[f.order]) && Constraints(db)
    ensures WillRefund(db, f) && RefundTargets(db, f) == {t}
  {
    hide Constraints, UnitCharge;
    assert RefundTargets(db, f) == {t};
  }

  /** One request per ticket. */
  function OneByOne(o: Id, tickets: seq<Id>, refunds: seq<Id>): (fs: seq<Request>)
    requires |refunds| == |tickets|
    ensures forall f | f in fs :: f.IssueRefund?
  {
    seq(|tickets|, i requires 0 <= i < |tickets| =>
      IssueRefund(o, None, [tickets[i]], "", refunds[i], Approved("")))
  }

  /** Whatever fresh ids the refunds draw, refunding ticket by ticket refunds the whole order. */
  lemma TicketByTicket(db: Db, o: Id, tickets: seq<Id>, refunds: seq<Id>)
    requires o in db.orders && db.orders[o].quantity >= 1 && ChargeFits(db.orders[o])
    requires Members(tickets) == ActiveTickets(db.tickets, o)
    requires |refunds| == |tickets| && Distinct(refunds) && Members(refunds) !! db.refunds.Keys
    requires db.orders[o].ticketType in db.types && Inv(db)
    ensures RefundedSet(db, o, ActiveTickets(db.tickets, o), Batches(db, OneByOne(o, tickets, refunds)))
  {
    hide Inv, Constraints, UnitCharge, RefundedSet, ActiveTickets;
    var fs := OneByOne(o, tickets, refunds);
    forall f | f in fs ensures Accepted(db, o, f) && |RefundTargets(db, f)| <= 1 {
      var i :| 0 <= i < |fs| && fs[i] == f;
      SubsetSize(RefundTargets(db, f), {tickets[i]});
    }
    forall i | 0 <= i < |fs| ensures fs[i].newRefund !in db.refunds {
      assert refunds[i] in Members(refunds);
    }
    forall f | f in fs ensures UnitCharge(db.orders[o]) * |RefundTargets(db, f)| <= MAX_INT {
      Monotone(UnitCharge(db.orders[o]), |RefundTargets(db, f)|, 1);
    }
    forall t | t in ActiveTickets(db.tickets, o) ensures NamedBy(fs, t) {
      assert t in Members(tickets);
      var i :| 0 <= i < |tickets| && tickets[i] == t;
      assert fs[i] in fs && t in fs[i].ticketIds;
    }
    CoveringBatchesRefundAll(db, o, fs);
  }

  /** No batches refund anything of an order outside the range. */
  lemma {:induction false} NoBatchesOutside(db: Db, o: Id, fs: seq<Request>)
    requires o in db.orders && db.orders[o].quantity >= 1 && !ChargeFits(db.orders[o])
    requires forall f | f in fs :: f.IssueRefund? && f.order == o
    requires Inv(db)
    ensures Batches(db, fs) == db
  {
    hide Inv, Constraints, UnitCharge, RefundOrder, ChargeFits;
    if fs != [] {
      var n := |fs| - 1;
      assert fs[n] in fs && forall f | f in fs[..n] :: f in fs;
      NoBatchesOutside(db, o, fs[..n]);
      InvBasics(db);
      NothingOutsideSucceeds(db, fs[n]);
    }
  }

  /** These requests, one after another, refund every ACTIVE ticket of the order. */
  ghost predicate RefundsAll(db: Db, o: Id, fs: seq<Request>)
    requires o in db.orders && db.orders[o].quantity >= 1 && db.orders[o].ticketType in db.types && Inv(db)
  {
    && (forall f | f in fs :: f.IssueRefund? && f.order == o)
    && RefundedSet(db, o, ActiveTickets(db.tickets, o), Batches(db, fs))
  }

  ghost predicate CanRefundSome(db: Db, o: Id)
    requires Constraints(db)
  {
    exists f: Request :: f.IssueRefund? && f.order == o && RefundOrder(db, f).reply.RefundReply?
  }

  ghost predicate CanRefundAll(db: Db, o: Id)
    requires o in db.orders && db.orders[o].quantity >= 1 && db.orders[o].ticketType in db.types && Inv(db)
  {
    exists fs :: RefundsAll(db, o, fs)
  }

  /** An order with ACTIVE tickets can be refunded at all, and then completely, exactly when its
      unit charge is positive and fits the refund column. */
  lemma RefundableIff(db: Db, o: Id)
    requires o in db.orders && db.orders[o].quantity >= 1 && ActiveTickets(db.tickets, o) != {}
    requires db.orders[o].ticketType in db.types && Constraints(db) && Inv(db)
    ensures CanRefundSome(db, o) <==> ChargeFits(db.orders[o])
    ensures CanRefundAll(db, o) <==> ChargeFits(db.orders[o])
  {
    hide Inv, Constraints, UnitCharge, ChargeFits, WillRefund, RefundsAll, RefundOrder, ActiveTickets;
    if ChargeFits(db.orders[o]) {
      SomeRefundSucceeds(db, o);
      AllCanBeRefunded(db, o);
    } else {
      forall f: Request | f.IssueRefund? && f.order == o ensures !RefundOrder(db, f).reply.RefundReply? {
        NothingOutsideSucceeds(db, f);
      }
      forall fs ensures !RefundsAll(db, o, fs) {
        NotAllOutside(db, o, fs);
      }
    }
  }

  /** One request that refunds every ACTIVE ticket of the order. */
  ghost predicate CanRefundAtOnce(db: Db, o: Id)
    requires Constraints(db)
  {
    exists f: Request :: f.IssueRefund? && f.order == o && RefundTargets(db, f) == ActiveTickets(db.tickets, o)
                         && RefundOrder(db, f).reply.RefundReply?
  }

  /** The order can be refunded at once exactly when the charge of all its ACTIVE tickets
      together is a positive amount that fits the refund column. */
  lemma RefundableAtOnceIff(db: Db, o: Id)
    requires o in db.orders && db.orders[o].quantity >= 1 && Constraints(db) && Inv(db)
    ensures CanRefundAtOnce(db, o)
            <==> 0 < UnitCharge(db.orders[o]) * |ActiveTickets(db.tickets, o)| <= MAX_INT
  {
    hide Inv, Constraints, UnitCharge, RefundOrder, ActiveTickets;
    var active := ActiveTickets(db.tickets, o);
    if 0 < UnitCharge(db.orders[o]) * |active| <= MAX_INT {
      var f := IssueRefund(o, None, [], "", Above(db.refunds.Keys), Approved(""));
      PositiveFactor(UnitCharge(db.orders[o]), |active|);
      assert RefundTargets(db, f) == active;
      RefundSucceedsIff(db, f);
    }
    forall f: Request | f.IssueRefund? && f.order == o && RefundTargets(db, f) == active
                        && RefundOrder(db, f).reply.RefundReply?
      ensures 0 < UnitCharge(db.orders[o]) * |active| <= MAX_INT
    {
      RefundSucceedsIff(db, f);
    }
  }

  lemma SomeRefundSucceeds(db: Db, o: Id)
    requires o in db.orders && db.orders[o].quantity >= 1 && ActiveTickets(db.tickets, o) != {}
    requires ChargeFits(db.orders[o]) && Constraints(db) && Inv(db)
    ensures CanRefundSome(db, o)
  {
    hide Inv, Constraints, UnitCharge, ChargeFits, WillRefund, RefundOrder, ActiveTickets;
    var t :| t in ActiveTickets(db.tickets, o);
    var f := IssueRefund(o, None, [t], "", Above(db.refunds.Keys), Approved(""));
    OneTicketSucceeds(db, f, t);
    RefundSucceedsIff(db, f);
  }

  lemma AllCanBeRefunded(db: Db, o: Id)
    requires o in db.orders && db.orders[o].quantity >= 1 && ChargeFits(db.orders[o])
    requires db.orders[o].ticketType in db.types && Inv(db)
    ensures CanRefundAll(db, o)
  {
    hide Inv, UnitCharge, ChargeFits, RefundedSet, ActiveTickets, Constraints;
    var tickets := Listing(ActiveTickets(db.tickets, o));
    var base := Above(db.refunds.Keys);
    var refunds: seq<Id> := seq(|tickets|, i => base + i);
    TicketByTicket(db, o, tickets, refunds);
    assert RefundsAll(db, o, OneByOne(o, tickets, refunds));
  }

  lemma NotAllOutside(db: Db, o: Id, fs: seq<Request>)
    requires o in db.orders && db.orders[o].quantity >= 1 && ActiveTickets(db.tickets, o) != {}
    requires !ChargeFits(db.orders[o]) && db.orders[o].ticketType in db.types && Inv(db)
    ensures !RefundsAll(db, o, fs)
  {
    hide Inv, UnitCharge, ChargeFits, Constraints;
    if RefundsAll(db, o, fs) {
      NoBatchesOutside(db, o, fs);
      StillActive(db.tickets, o, ActiveTickets(db.tickets, o));
      assert false;
    }
  }

  /** The members of a set in a list. */
  ghost function Listing(s: set<Id>): (xs: seq<Id>)
    ensures Members(xs) == s
    decreases |s|
  {
    if s == {} then [] else
      var k := Least(s);
      var rest := Listing(s - {k});
      assert Members(rest + [k]) == Members(rest) + {k};
      rest + [k]
  }

  /** There is always a larger id. */
  ghost function Above(used: set<Id>): (r: Id)
    ensures forall k | k in used :: k < r
    decreases |used|
  {
    if used == {} then 0 else
      var k := Least(used);
      var r := Above(used - {k});
      assert forall j | j in used :: j == k || j in used - {k};
      if r <= k then k + 1 else r
  }
}

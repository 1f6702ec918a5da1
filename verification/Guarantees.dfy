/** What every reachable database guarantees about inventory, orders and money. A database is
    reachable when some interleaving of transactions commits it. */
module Guarantees {
  import opened Sums
  import opened Schema
  import opened Services
  import opened Invariants
  import opened Preservation
  import opened Runs
  import opened Machine
  import opened Interleaving
  import opened Serializability
  import opened Delivery
  import opened Pausing
  import opened AuditTrail
  import opened SalesReport
  import opened SalesTotals

  /** d is the committed database after some interleaved run from before the first sale. */
  ghost predicate Reached(init: Db, steps: seq<Action>, d: Db) {
    Pristine(init) && Interleave(init, steps).Some? && d == Interleave(init, steps).value.db
  }

  lemma ReachedIsSound(init: Db, steps: seq<Action>, d: Db)
    requires Reached(init, steps, d)
    ensures Inv(d)
  {
    hide Inv, TxnOk;
    Serializable(init, steps);
  }

  /** Zero drift, never oversold, never negative. */
  lemma CountersAreExact(init: Db, steps: seq<Action>, d: Db, t: Id)
    requires Reached(init, steps, d) && t in d.types
    ensures d.types[t].sold == ActualSold(d.tickets, d.orders, t)
    ensures d.types[t].held == ActualHeld(d.reservations, t)
    ensures 0 <= d.types[t].sold && 0 <= d.types[t].held && d.types[t].sold + d.types[t].held <= d.types[t].capacity
  {
    hide Reached, ActualSold, ActualHeld, OrdersOk, OrdersMatch, ReservationsOk;
    ReachedIsSound(init, steps, d);
    assert TypeFits(d.types[t]);
  }

  lemma TallyIsOk(init: Db, steps: seq<Action>, d: Db, o: Id)
    requires Reached(init, steps, d) && o in d.orders
    ensures BooksOk(d.orders[o], TallyOf(d.tickets, d.refunds, o))
    ensures d.orders[o].quantity >= 1 && UnitCharge(d.orders[o]) >= 0
    ensures Matches(d.orders[o], d.reservations, d.types)
  {
    hide Reached, BooksOk, UnitCharge, Matches, TallyOf;
    ReachedIsSound(init, steps, d);
    OrderKnown(d, o);
    ChargeNonNegative(d.orders[o]);
  }

  /** Captured minus refunded is the unit charge of the ACTIVE tickets; refunds never exceed
      the capture, and a sold order that charges anything is refunded in full exactly when it
      is REFUNDED. */
  lemma MoneyBalances(init: Db, steps: seq<Action>, d: Db, o: Id)
    requires Reached(init, steps, d) && o in d.orders && d.orders[o].quantity >= 1
    ensures var row, active, back := d.orders[o], |ActiveTickets(d.tickets, o)|, RefundedCents(d.refunds, o);
            && row.captured - back == UnitCharge(row) * active
            && 0 <= back <= row.captured
            && (row.status.Failed? ==> row.captured == 0)
            && (!row.status.Failed? ==>
                  row.captured == row.total + row.fees + row.tax == UnitCharge(row) * row.quantity)
            && (UnitCharge(row) > 0 && !row.status.Failed? ==> (back == row.captured <==> row.status.Refunded?))
  {
    hide Reached, UnitCharge, ActiveTickets, OrderTickets, RefundedCents, RefundsOf, Matches;
    TallyIsOk(init, steps, d, o);
    var row, n := d.orders[o], TallyOf(d.tickets, d.refunds, o);
    ProductSign(UnitCharge(row), n.active);
    ChargeOfPriced(row);
    RefundsNonNegative(d, o, init, steps);
  }

  lemma ProductSign(unit: int, n: nat)
    requires unit >= 0
    ensures unit * n >= 0 && (unit > 0 ==> (unit * n == 0 <==> n == 0))
  {}

  lemma ChargeOfPriced(o: Order)
    requires Priced(o)
    ensures o.total + o.fees + o.tax == UnitCharge(o) * o.quantity
  {
    Distribute(o.unitPrice, o.fees / o.quantity, o.tax / o.quantity, o.quantity);
  }

  lemma RefundsNonNegative(d: Db, o: Id, init: Db, steps: seq<Action>)
    requires Reached(init, steps, d)
    ensures RefundedCents(d.refunds, o) >= 0
  {
    hide Reached, TypesFit, CountersExact, OrdersOk, OrdersMatch, ReservationsOk;
    ReachedIsSound(init, steps, d);
    forall f | f in d.refunds.Keys ensures RefundWeight(d.refunds, o)(f) >= 0 {
      assert RefundFits(d.refunds[f]);
    }
    TotalBounds(d.refunds.Keys, RefundWeight(d.refunds, o));
  }

  /** The order's status is a function of its tickets; PROCESSING is never committed, and an
      order has at most `quantity` refunds. */
  lemma StatusIsTickets(init: Db, steps: seq<Action>, d: Db, o: Id)
    requires Reached(init, steps, d) && o in d.orders
    ensures var row, all, active := d.orders[o], OrderTickets(d.tickets, o), ActiveTickets(d.tickets, o);
            && (row.status.Failed? <==> all == {})
            && (row.status.Confirmed? <==> |all| == row.quantity && active == all)
            && (row.status.PartiallyRefunded? <==> |all| == row.quantity && active != {} && active != all)
            && (row.status.Refunded? <==> |all| == row.quantity && active == {})
            && !row.status.Processing?
            && (forall t | t in all - active :: d.tickets[t].status.Refunded?)
            && |RefundsOf(d.refunds, o)| + |active| <= row.quantity
  {
    hide Reached, UnitCharge, RefundedCents, Matches, Priced;
    TallyIsOk(init, steps, d, o);
    NoneCancelled(init, steps, d);
    SubsetSize(ActiveTickets(d.tickets, o), OrderTickets(d.tickets, o));
    hide OrderTickets, ActiveTickets;
  }

  lemma NoneCancelled(init: Db, steps: seq<Action>, d: Db)
    requires Reached(init, steps, d)
    ensures TicketsOk(d.tickets)
  {
    hide Reached;
    ReachedIsSound(init, steps, d);
  }

  /** A reservation has at most one order that was not declined, and is CONFIRMED exactly when
      it has one; the order repeats the reservation's quantity and ticket type. */
  lemma ConfirmedMeansSold(init: Db, steps: seq<Action>, d: Db, r: Id)
    requires Reached(init, steps, d) && r in d.reservations
    ensures |Sales(d.orders, r)| <= 1
    ensures d.reservations[r].status.Confirmed? <==> exists o :: o in Sales(d.orders, r)
    ensures forall o | o in d.orders && d.orders[o].reservation == r ::
              && d.orders[o].quantity == d.reservations[r].quantity
              && d.orders[o].ticketType == d.reservations[r].ticketType
  {
    hide Reached, CountersExact, OrdersOk, Constraints, Sales;
    ReachedIsSound(init, steps, d);
    assert |Sales(d.orders, r)| == if d.reservations[r].status.Confirmed? then 1 else 0;
    if d.reservations[r].status.Confirmed? {
      var o :| o in Sales(d.orders, r);
    }
  }

  // ---------- between two points of one run ----------

  lemma StepExtendsHistory(m: State, a: Action)
    requires Constraints(m.db) && Enabled(m, a)
    ensures m.history <= Do(m, a).history
  {
    hide Constraints, Exec, Merge, Needs, Vacant, Passes, CanStart;
  }

  lemma {:induction false} HistoryGrows(init: Db, steps: seq<Action>, k: nat)
    requires Interleave(init, steps).Some? && k <= |steps|
    ensures Interleave(init, steps[..k]).Some?
    ensures Interleave(init, steps[..k]).value.history <= Interleave(init, steps).value.history
  {
    hide Enabled, Constraints;
    if k < |steps| {
      var n := |steps| - 1;
      assert steps[..n][..k] == steps[..k];
      HistoryGrows(init, steps[..n], k);
      StepExtendsHistory(Interleave(init, steps[..n]).value, steps[n]);
    } else {
      assert steps[..k] == steps;
    }
  }

  /** What was finished after the first k steps of a run. */
  ghost function Since(init: Db, steps: seq<Action>, k: nat): seq<Entry>
    requires Interleave(init, steps).Some? && k <= |steps|
  {
    HistoryGrows(init, steps, k);
    Interleave(init, steps).value.history[|Interleave(init, steps[..k]).value.history|..]
  }

  /** The later database is the earlier one after the requests finished in between, run serially. */
  lemma LaterIsReplayed(init: Db, steps: seq<Action>, k: nat)
    requires Inv(init) && Interleave(init, steps).Some? && k <= |steps|
    ensures Interleave(init, steps[..k]).Some?
    ensures var early := Interleave(init, steps[..k]).value.db;
            Inv(early) && Replay(early, Since(init, steps, k)) == Some(Interleave(init, steps).value.db)
  {
    hide Inv, Replay;
    HistoryGrows(init, steps, k);
    Serializable(init, steps);
    Serializable(init, steps[..k]);
    var h, all := Interleave(init, steps[..k]).value.history, Interleave(init, steps).value.history;
    assert all[..|h|] == h;
    ReplaySplit(init, all, |h|);
  }

  /** Along every interleaved run CONFIRMED, EXPIRED and CANCELLED are final, orders only move
      forward, refunded tickets stay refunded, keys, refunds and log rows are permanent. */
  lemma NothingGoesBack(init: Db, steps: seq<Action>, k: nat)
    requires Inv(init) && Interleave(init, steps).Some? && k <= |steps|
    ensures Interleave(init, steps[..k]).Some?
    ensures Evolves(Interleave(init, steps[..k]).value.db, Interleave(init, steps).value.db)
  {
    hide Inv, Replay, Evolves;
    LaterIsReplayed(init, steps, k);
    RunEvolves(Interleave(init, steps[..k]).value.db, Since(init, steps, k));
  }

  /** The same, row by row. */
  lemma WhatIsPermanent(init: Db, steps: seq<Action>, k: nat)
    requires k <= |steps| && Interleave(init, steps).Some? && Inv(init)
    ensures Interleave(init, steps[..k]).Some?
    ensures Permanent(Interleave(init, steps[..k]).value.db, Interleave(init, steps).value.db)
  {
    hide Inv, Interleave, Permanent;
    NothingGoesBack(init, steps, k);
    EvolvesMeans(Interleave(init, steps[..k]).value.db, Interleave(init, steps).value.db);
  }

  /** What later databases keep of an earlier one. */
  predicate Permanent(a: Db, b: Db) {
    && (forall r | r in a.reservations ::
          && r in b.reservations && b.reservations[r].user == a.reservations[r].user
          && b.reservations[r].quantity == a.reservations[r].quantity
          && b.reservations[r].ticketType == a.reservations[r].ticketType
          && (a.reservations[r].status != ReservationStatus.Active ==> b.reservations[r] == a.reservations[r]))
    && (forall o | o in a.orders :: o in b.orders && b.orders[o].captured == a.orders[o].captured
          && (a.orders[o].status.Failed? || a.orders[o].status.Refunded? ==> b.orders[o] == a.orders[o])
          && (a.orders[o].status.PartiallyRefunded? ==>
                b.orders[o].status.PartiallyRefunded? || b.orders[o].status.Refunded?)
          && (a.orders[o].status.Confirmed? ==> !b.orders[o].status.Failed? && !b.orders[o].status.Processing?))
    && (forall t | t in a.tickets && a.tickets[t].status.Refunded? :: t in b.tickets && b.tickets[t] == a.tickets[t])
    && (forall f | f in a.refunds :: f in b.refunds && b.refunds[f] == a.refunds[f])
    && (forall k | k in a.keyIndex :: k in b.keyIndex && b.keyIndex[k] == a.keyIndex[k])
    && |a.audit| <= |b.audit| && b.audit[..|a.audit|] == a.audit
  }

  lemma EvolvesMeans(a: Db, b: Db)
    requires Evolves(a, b)
    ensures Permanent(a, b)
  {}

  /** From any point at which an event is paused until it is resumed, interleaved transactions
      never raise `sold` or `held` of its ticket types. */
  lemma PausedInventoryShrinks(init: Db, steps: seq<Action>, k: nat, e: Id)
    requires Inv(init) && Interleave(init, steps).Some? && k <= |steps| && Interleave(init, steps[..k]).Some?
    requires SalesOff(Interleave(init, steps[..k]).value.db, e) && NeverResumed(Since(init, steps, k), e)
    ensures OnlyShrank(Interleave(init, steps[..k]).value.db.types, Interleave(init, steps).value.db.types, e)
  {
    hide Inv, Replay, OnlyShrank, SalesOff, NeverResumed;
    LaterIsReplayed(init, steps, k);
    PausedRunShrinks(Interleave(init, steps[..k]).value.db, Since(init, steps, k), e);
  }

  /** Over any interleaved run one idempotency key moves inventory at most once and names at
      most one order, the one every answered purchase with that key was given. */
  lemma OneKeyOneOrder(init: Db, steps: seq<Action>, key: string)
    requires Inv(init) && Interleave(init, steps).Some?
    ensures var m := Interleave(init, steps).value;
            && MovesFor(init, m.history, key) <= 1
            && |OrdersWithKey(m.db, key)| <= 1
            && (forall e | e in m.history && ForKey(e.request, key) && e.reply.OrderReply? ::
                  key in m.db.keyIndex && e.reply.order == m.db.keyIndex[key])
  {
    hide Inv, Replay, MovesFor, OrdersWithKey;
    Serializable(init, steps);
    KeyMovesOnce(init, Interleave(init, steps).value.history, key);
  }

  /** The committed audit log of any interleaved run reconstructs both counters of every type. */
  lemma LogTellsCounters(init: Db, steps: seq<Action>, d: Db, t: Id)
    requires Reached(init, steps, d) && t in init.types
    ensures t in d.types && d.types[t].held == LoggedHeld(d.audit, d.reservations, t)
    ensures d.types[t].sold == LoggedSold(d.audit, d.orders, t)
  {
    hide Inv, Replay, LoggedHeld, LoggedSold;
    Serializable(init, steps);
    LogReconstructsCounters(init, Interleave(init, steps).value.history, t);
  }

  /** Along any interleaved run the release of a hold without a sale is logged once if the
      reservation ended CANCELLED or EXPIRED, and never otherwise. */
  lemma HoldsReleasedOnce(init: Db, steps: seq<Action>, d: Db, r: Id)
    requires Reached(init, steps, d)
    ensures ReleaseCount(d.audit, r) ==
            if r in d.reservations && (d.reservations[r].status.Cancelled? || d.reservations[r].status.Expired?) then 1
            else 0
  {
    hide Inv, Replay, ReleaseCount;
    Serializable(init, steps);
    ReleasedAtMostOnce(init, Interleave(init, steps).value.history, r);
  }

  /** In every reachable database the net revenue of the unfiltered sales report is the unit
      charge of the ACTIVE tickets, and no row is negative. */
  lemma RevenueIsActiveCharge(init: Db, steps: seq<Action>, d: Db, report: seq<Row>)
    requires Reached(init, steps, d) && IsReport(d, Reported(d.orders, Period(None, None)), report)
    ensures SumOver(report, Net) == Total(d.orders.Keys, ActiveCharge(d.orders, d.tickets))
    ensures forall r | r in report :: r.net >= 0
  {
    hide Reached, Inv, IsReport;
    ReachedIsSound(init, steps, d);
    NetRevenueIsActiveCharge(d, report);
  }
}

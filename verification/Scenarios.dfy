/** Small concrete runs that show where the code falls short of what one might expect. */
module Scenarios {
  import opened Sums
  import opened Schema
  import opened Services
  import opened Invariants
  import opened Preservation
  import opened Runs
  import opened Purchases
  import opened RoundTrips
  import opened Delivery
  import opened Jobs
  import opened RefundBatches
  import opened SalesReport
  import opened Reconciliation
  import opened Storage
  import opened Machine
  import opened Completeness

  /** Two events with two tickets of one type each, before any sale. */
  function Shop(price: int, fee: int): Db {
    Db(map[0 := Event("Gala", 10, false), 1 := Event("Fair", 10, false)],
       map[0 := TicketType(0, TypeStatus.Active, 2, 0, 0, price, fee, 0),
           1 := TicketType(1, TypeStatus.Active, 2, 0, 0, price, fee, 0)],
       map[], map[], map[], map[], map[], [])
  }

  function Hold(t: Id, n: int, r: Id): Request {
    Create(User(1, false, "ada"), t, n, 0, r)
  }

  function Buy(r: Id, now: int, late: bool, capture: Gateway, tickets: seq<Id>): Request {
    Purchase(r, "key", "ada", now, late, 0, 0, capture, tickets)
  }

  function AskBack(ids: seq<Id>): Request {
    IssueRefund(0, None, ids, "ada", 0, Approved("back"))
  }

  lemma ShopPristine(price: int, fee: int)
    requires InRange(price) && InRange(fee)
    ensures Pristine(Shop(price, fee))
  {
    var db := Shop(price, fee);
    assert SoldTickets(db.tickets, db.orders, 0) == {} && SoldTickets(db.tickets, db.orders, 1) == {};
  }

  /** One more request; one that is not admissible is not made. */
  ghost function Then(db: Db, q: Request): (d: Db)
    requires Inv(db)
    ensures Inv(d)
  {
    if Admissible(db, q) then
      ApplyKeepsInv(db, q);
      Apply(db, q).db
    else db
  }

  // ---------- these databases are reachable ----------

  ghost predicate Serially(init: Db, d: Db)
    requires Inv(init)
  {
    exists log :: Replay(init, log) == Some(d) && NoneLate(log)
  }

  lemma ThenSerially(init: Db, d: Db, q: Request)
    requires Inv(init) && Inv(d) && Serially(init, d) && (q.Purchase? ==> !q.late)
    ensures Serially(init, Then(d, q))
  {
    hide Inv, Apply, Admissible;
    var log :| Replay(init, log) == Some(d) && NoneLate(log);
    if Admissible(d, q) {
      InvBasics(d);
      var e := Entry(q, Apply(d, q).reply);
      ReplayAppend(init, log, e);
      assert Replay(init, log + [e]) == Some(Then(d, q));
    }
  }

  /** Some interleaved run of transactions commits d. */
  lemma SeriallyReached(init: Db, d: Db)
    requires Inv(init) && Serially(init, d)
    ensures exists log :: CanReach(init, State(d, map[], log))
  {
    hide Inv, CanReach;
    var log :| Replay(init, log) == Some(d) && NoneLate(log);
    SerialRunsAreRuns(init, log);
  }

  lemma BeginsSerially(init: Db)
    requires Inv(init)
    ensures Serially(init, init)
  {
    hide Inv;
    assert Replay(init, []) == Some(init);
  }

  // ---------- one buyer ----------

  ghost function Held1(price: int, fee: int, n: int): (d: Db)
    requires InRange(price) && InRange(fee)
    ensures Inv(d)
  {
    ShopPristine(price, fee);
    Then(Shop(price, fee), Hold(0, n, 0))
  }

  /** A buyer holds n tickets and pays for them, or is declined. */
  ghost function Paid(price: int, fee: int, n: int, capture: Gateway): (d: Db)
    requires InRange(price) && InRange(fee)
    ensures Inv(d)
  {
    Then(Held1(price, fee, n), Buy(0, 0, false, capture, if n == 1 then [0] else [0, 1]))
  }

  lemma PaidIsReached(price: int, fee: int, n: int, capture: Gateway)
    requires InRange(price) && InRange(fee)
    ensures exists log :: CanReach(Shop(price, fee), State(Paid(price, fee, n, capture), map[], log))
  {
    hide Inv, CanReach, Then;
    var init := Shop(price, fee);
    ShopPristine(price, fee);
    BeginsSerially(init);
    ThenSerially(init, init, Hold(0, n, 0));
    ThenSerially(init, Held1(price, fee, n), Buy(0, 0, false, capture, if n == 1 then [0] else [0, 1]));
    SeriallyReached(init, Paid(price, fee, n, capture));
  }

  lemma HoldsTickets(price: int, fee: int, n: int)
    requires InRange(price) && InRange(fee) && 1 <= n <= 2
    ensures var d := Held1(price, fee, n);
            && Constraints(d)
            && d == Shop(price, fee).(types := Shop(price, fee).types[0 := Move(Shop(price, fee).types[0], 0, n)],
                                      audit := d.audit,
                                      reservations := map[0 := Reservation(1, 0, n, ReservationStatus.Active,
                                                                           10 * MINUTE)])
  {
    hide Inv, Constraints;
    ShopPristine(price, fee);
    InvBasics(Shop(price, fee));
    InvBasics(Held1(price, fee, n));
  }

  lemma Sells(price: int, fee: int, n: int)
    requires 1 <= n <= 2 && 0 <= n * price <= MAX_INT && 0 <= n * fee <= MAX_INT
    ensures InRange(price) && InRange(fee)
    ensures var d, p := Held1(price, fee, n), Buy(0, 0, false, Approved("paid"), if n == 1 then [0] else [0, 1]);
            && Constraints(d) && Admissible(d, p) && WillSell(d, p)
            && Members(p.newTickets) == if n == 1 then {0} else {0, 1}
  {
    hide Inv, Constraints, Held1;
    HoldsTickets(price, fee, n);
  }

  lemma OnlyRowWritten<V>(before: map<Id, V>, after: map<Id, V>, k: Id)
    requires OnlyRow(before, after, k)
    ensures k in after && after == before[k := after[k]]
  {}

  lemma PaysForTickets(price: int, fee: int, n: int)
    requires 1 <= n <= 2 && 0 <= n * price <= MAX_INT && 0 <= n * fee <= MAX_INT
    ensures InRange(price) && InRange(fee)
    ensures var d := Paid(price, fee, n, Approved("paid"));
            && Constraints(d) && 0 in d.orders && d.orders[0].status.Confirmed? && d.orders[0].quantity == n
            && UnitCharge(d.orders[0]) == price + fee && d.orders[0].reservation == 0
            && ActiveTickets(d.tickets, 0) == (if n == 1 then {0} else {0, 1})
  {
    hide Inv, Constraints, Held1, ProcessPurchase, WillSell, Admissible, UnitCharge, Minted, Members, ActiveTickets,
         OnlyRow;
    var d, p := Held1(price, fee, n), Buy(0, 0, false, Approved("paid"), if n == 1 then [0] else [0, 1]);
    HoldsTickets(price, fee, n);
    Sells(price, fee, n);
    SaleInFull(d, p);
    SaleOrder(d, p);
    SoldTicketsOfSale(d, Paid(price, fee, n, Approved("paid")), p);
    InvBasics(Paid(price, fee, n, Approved("paid")));
  }

  /** The other tables after the sale. */
  lemma PaidTables(price: int, fee: int, n: int)
    requires 1 <= n <= 2 && 0 <= n * price <= MAX_INT && 0 <= n * fee <= MAX_INT
    ensures InRange(price) && InRange(fee)
    ensures var s, d := Shop(price, fee), Paid(price, fee, n, Approved("paid"));
            && d.events == s.events && d.keyIndex == map["key" := 0] && d.refunds == map[]
            && d.types == s.types[0 := s.types[0].(sold := n)] && d.reservations.Keys == {0}
  {
    hide Inv, Constraints, Held1, ProcessPurchase, WillSell, Admissible, UnitCharge, Minted, Members, OnlyRow;
    var d, p := Held1(price, fee, n), Buy(0, 0, false, Approved("paid"), if n == 1 then [0] else [0, 1]);
    HoldsTickets(price, fee, n);
    Sells(price, fee, n);
    SaleInFull(d, p);
    OnlyRowWritten(d.types, ProcessPurchase(d, p).db.types, 0);
    OnlyRowWritten(d.reservations, ProcessPurchase(d, p).db.reservations, 0);
  }

  // ---------- refunds the code cannot make ----------

  /** What the sold database answers, by the number of tickets asked back. */
  lemma AskedBack(d: Db, unit: int, ids: seq<Id>, n: nat)
    requires 0 in d.orders && d.orders[0].quantity == 2 && UnitCharge(d.orders[0]) == unit && d.refunds == map[]
    requires RefundTargets(d, AskBack(ids)) != {} && |RefundTargets(d, AskBack(ids))| == n
    requires Constraints(d) && Inv(d)
    ensures if 0 < unit * n <= MAX_INT then RefundOrder(d, AskBack(ids)).reply == RefundReply(0)
            else RefundOrder(d, AskBack(ids)) == Outcome(d, Raised(DatabaseError))
  {
    hide Inv, Constraints, RefundTargets, UnitCharge, ActiveTickets, Refunding, TypeFits;
    TargetsActive(d, AskBack(ids));
    ActiveMeansRefundable(d, 0);
    RefundSucceedsIff(d, AskBack(ids));
    NeverNegative(d, 0, n);
  }

  /** Nobody gets any refund of order 0, however they ask. */
  ghost predicate NeverRefunded(d: Db)
    requires Constraints(d)
  {
    forall f: Request | f.IssueRefund? && f.order == 0 :: RefundOrder(d, f).reply.Raised? && RefundOrder(d, f).db == d
  }

  lemma OutsideNeverRefunded(d: Db)
    requires 0 in d.orders && d.orders[0].quantity >= 1 && !ChargeFits(d.orders[0])
    requires Constraints(d) && Inv(d)
    ensures NeverRefunded(d)
  {
    hide Inv, Constraints, UnitCharge, RefundOrder;
    forall f: Request | f.IssueRefund? && f.order == 0
      ensures RefundOrder(d, f).reply.Raised? && RefundOrder(d, f).db == d {
      NothingOutsideSucceeds(d, f);
      RefundReplies(d, f);
    }
  }

  lemma RefundReplies(d: Db, f: Request)
    requires f.IssueRefund? && Constraints(d)
    ensures RefundOrder(d, f).reply.RefundReply? || RefundOrder(d, f).reply.Raised?
  {
    hide Constraints, UnitCharge, TypeFits, RefundTargets;
  }

  /** A free order is sold, yet no refund of it ever succeeds; asking for all of it meets the
      CHECK constraint of the refund table. */
  lemma FreeOrderIsNotRefundable()
    ensures var d := Paid(0, 0, 2, Approved("paid"));
            && Constraints(d) && NeverRefunded(d)
            && RefundOrder(d, AskBack([])) == Outcome(d, Raised(DatabaseError))
  {
    hide Inv, Constraints, Paid, RefundOrder, UnitCharge, NeverRefunded;
    var d := Paid(0, 0, 2, Approved("paid"));
    PaysForTickets(0, 0, 2);
    PaidTables(0, 0, 2);
    OutsideNeverRefunded(d);
    assert RefundTargets(d, AskBack([])) == {0, 1};
    AskedBack(d, 0, [], 2);
  }

  /** An order whose whole charge exceeds the refund column cannot be refunded at once,
      though each of its tickets can be. */
  lemma LargeOrderOnlyInPieces()
    ensures var d := Paid(1_000_000_000, 1_000_000_000, 2, Approved("paid"));
            && Constraints(d) && RefundOrder(d, AskBack([])) == Outcome(d, Raised(DatabaseError))
            && RefundOrder(d, AskBack([0])).reply == RefundReply(0)
  {
    hide Inv, Constraints, Paid, RefundOrder, UnitCharge;
    var d := Paid(1_000_000_000, 1_000_000_000, 2, Approved("paid"));
    PaysForTickets(1_000_000_000, 1_000_000_000, 2);
    PaidTables(1_000_000_000, 1_000_000_000, 2);
    assert RefundTargets(d, AskBack([])) == {0, 1};
    assert RefundTargets(d, AskBack([0])) == {0};
    AskedBack(d, 2_000_000_000, [], 2);
    AskedBack(d, 2_000_000_000, [0], 1);
  }

  /** An order whose single ticket already exceeds the refund column fits every column of its
      own, is sold, and is never refunded in any pieces. */
  lemma HugeOrderNeverRefunded()
    ensures var d := Paid(2_000_000_000, 2_000_000_000, 1, Approved("paid"));
            && Constraints(d) && 0 in d.orders && d.orders[0].status.Confirmed? && OrderFits(d.orders[0])
            && NeverRefunded(d)
  {
    hide Inv, Constraints, Paid, UnitCharge, NeverRefunded;
    var d := Paid(2_000_000_000, 2_000_000_000, 1, Approved("paid"));
    PaysForTickets(2_000_000_000, 2_000_000_000, 1);
    OrderKnown(d, 0);
    OutsideNeverRefunded(d);
  }

  // ---------- purchases ----------

  /** A hold of ten minutes, bought in the eleventh: the purchase raises, the ticket stays held,
      and the sweep of that moment can release it. */
  lemma TooLate()
    ensures var d, p := Held1(1000, 0, 1), Buy(0, 11 * MINUTE, false, Approved("paid"), [0]);
            && Constraints(d) && ProcessPurchase(d, p) == Outcome(d, Raised(ReservationExpired))
            && 0 in d.reservations && d.reservations[0].status.Active? && 0 in d.types && d.types[0].held == 1
            && Stale(d, 11 * MINUTE, 0)
  {
    hide Inv, Constraints, Held1;
    HoldsTickets(1000, 0, 1);
    TypeKnown(Held1(1000, 0, 1), 0);
    ExpiredHoldAwaitsSweep(Held1(1000, 0, 1), Buy(0, 11 * MINUTE, false, Approved("paid"), [0]), 11 * MINUTE);
  }

  /** After the sale of reservation 0 the buyer also holds reservation 1, for the other event. */
  ghost function HeldAgain(): (d: Db)
    ensures Inv(d)
  {
    Then(Paid(1000, 0, 1, Approved("paid")), Hold(1, 1, 1))
  }

  lemma HoldsAgain()
    ensures var d := HeldAgain();
            && Constraints(d) && 1 in d.reservations && d.keyIndex == map["key" := 0]
            && d.reservations[1] == Reservation(1, 1, 1, ReservationStatus.Active, 10 * MINUTE)
            && 1 in d.types && 1 in d.events && d.types[1].event == 1 && !d.events[1].salesPaused
            && 0 in d.orders && d.orders[0].reservation == 0
  {
    hide Inv, Constraints, Paid, UnitCharge, ActiveTickets;
    PaysForTickets(1000, 0, 1);
    PaidTables(1000, 0, 1);
    InvBasics(HeldAgain());
  }

  /** A duplicate with the key of a completed order, for a hold of another event that has run
      out: having looked its key up before the order was committed it raises, where it would
      have been given the order one look later. */
  lemma EarlyDuplicateRaises()
    ensures var d := HeldAgain();
            && Constraints(d)
            && ProcessPurchase(d, Buy(1, 11 * MINUTE, true, Approved("paid"), [1]))
               == Outcome(d, Raised(ReservationExpired))
            && ProcessPurchase(d, Buy(1, 11 * MINUTE, false, Approved("paid"), [1])).reply == OrderReply(0)
  {
    hide Inv, Constraints, HeldAgain;
    HoldsAgain();
    ExpiredHoldAwaitsSweep(HeldAgain(), Buy(1, 11 * MINUTE, true, Approved("paid"), [1]), 11 * MINUTE);
    DuplicateGetsTheOrder(HeldAgain(), Buy(1, 11 * MINUTE, false, Approved("paid"), [1]));
  }

  /** The hold of the other event, bought in time with the key of the first order: the answer is
      that first order, and the hold is not bought. */
  lemma UsedKeyBuysNothing()
    ensures var d, p := HeldAgain(), Buy(1, 0, false, Approved("paid"), [1]);
            && Constraints(d)
            && var out := ProcessPurchase(d, p);
               && out.reply == OrderReply(0) && 0 in out.db.orders && out.db.orders[0].reservation == 0
               && 1 in out.db.reservations && out.db.reservations[1].status.Active?
  {
    hide Inv, Constraints, HeldAgain;
    HoldsAgain();
    DuplicateGetsTheOrder(HeldAgain(), Buy(1, 0, false, Approved("paid"), [1]));
  }

  function BuyWith(key: string): Request {
    Purchase(0, key, "ada", 0, false, 0, 0, Approved("paid"), [0])
  }

  /** A live hold bought with a key that is too long for its column: nothing is sold, the INSERT
      raises every time, and the job ends in the dead letter queue. */
  lemma OverlongKey(key: string, a: Attempt)
    requires |key| > MAX_KEY
    requires a.before == [] && !a.lost && AsRequest(0, key, "ada", a) == BuyWith(key)
    ensures var d := Held1(1000, 0, 1);
            && Constraints(d) && ProcessPurchase(d, BuyWith(key)) == Outcome(d, Raised(DatabaseError))
            && RunTask(d, 0, key, "ada", [a, a, a, a]) == Some((d, DeadLettered))
  {
    hide Inv, Constraints, Held1;
    HoldsTickets(1000, 0, 1);
    TypeKnown(Held1(1000, 0, 1), 0);
    RetriesExhausted(Held1(1000, 0, 1), 0, key, "ada", [a, a, a, a]);
  }

  /** The job runs four times, the first execution and three retries, before it is given up. */
  method FourAttempts(key: string, a: Attempt) returns (outcome: TaskOutcome)
    requires |key| > MAX_KEY && a.before == [] && !a.lost && AsRequest(0, key, "ada", a) == BuyWith(key)
    ensures outcome == DeadLettered
  {
    hide Inv, Constraints, Held1, RunTask;
    var d := HeldTicket();
    HeldTicketIs();
    OverlongKey(key, a);
    var store := new Store(d);
    outcome := store.ProcessPurchaseTask(0, key, "ada", [a, a, a, a]);
  }

  /** The database of `Held1(1000, 0, 1)`, written out. */
  function HeldTicket(): Db {
    Shop(1000, 0).(types := Shop(1000, 0).types[0 := Move(Shop(1000, 0).types[0], 0, 1)],
                   audit := [AuditRow("ada", InventoryHeld(0, 1, 0))],
                   reservations := map[0 := Reservation(1, 0, 1, ReservationStatus.Active, 10 * MINUTE)])
  }

  lemma HeldTicketIs()
    ensures HeldTicket() == Held1(1000, 0, 1)
  {
    hide Inv, Constraints;
    HoldsTickets(1000, 0, 1);
  }

  // ---------- the sales report ----------

  lemma DeclinedTickets()
    ensures var d := Paid(1000, 0, 1, Declined);
            0 in d.orders && d.orders.Keys == {0} && d.orders[0].status.Failed? && d.orders[0].createdAt == 0
  {
    hide Inv, Constraints;
    HoldsTickets(1000, 0, 1);
  }

  /** A reachable day on which an order was placed and that no report shows: it was declined. */
  lemma DeclinedDayHasNoRow(p: Period, report: seq<Row>)
    requires IsReport(Paid(1000, 0, 1, Declined), Reported(Paid(1000, 0, 1, Declined).orders, p), report)
    ensures var d := Paid(1000, 0, 1, Declined);
            0 in d.orders && KeyOf(d.orders[0]) == Key(d.orders[0].event, 0) && report == []
    ensures exists log :: CanReach(Shop(1000, 0), State(Paid(1000, 0, 1, Declined), map[], log))
  {
    hide Inv, Paid, CanReach, InOrder, OneRowPerKey, AsRow, BucketFor, RowsRight;
    DeclinedTickets();
    PaidIsReached(1000, 0, 1, Declined);
    var d := Paid(1000, 0, 1, Declined);
    assert Reported(d.orders, p) == {};
    RowHasOrders(d, {}, report);
  }

  lemma RowHasOrders(db: Db, sel: set<Id>, report: seq<Row>)
    requires RowsRight(db, sel, report)
    ensures report == [] || Group(db.orders, sel, RowKey(report[0])) != {}
  {
    if report != [] {
      assert report[0] in report;
    }
  }

  // ---------- reconciliation ----------

  /** Counters that drifted: type 0 has a hold but no capacity, type 1 a sale that never was. */
  function Drifted(): Db {
    Db(map[0 := Event("Gala", 10, false)],
       map[0 := TicketType(0, TypeStatus.Active, 0, 0, 0, 1000, 0, 0),
           1 := TicketType(0, TypeStatus.Active, 5, 1, 0, 1000, 0, 0)],
       map[][0 := Reservation(1, 0, 1, ReservationStatus.Active, 0)], map[], map[], map[], map[], [])
  }

  lemma DriftedFindings()
    ensures Has(Drifted(), 0, Oversell) && Has(Drifted(), 1, Drift) && !Has(Drifted(), 1, Oversell)
  {
    var d, none := Drifted(), map[];
    var row := Reservation(1, 0, 1, ReservationStatus.Active, 0);
    HeldPoint(none, 0, row, 0);
    HeldPoint(none, 0, row, 1);
    assert ActualHeld(none, 0) == 0 && ActualHeld(none, 1) == 0;
    assert SoldTickets(d.tickets, d.orders, 0) == {} && SoldTickets(d.tickets, d.orders, 1) == {};
  }

  lemma DriftedReports()
    ensures TypesFit(Drifted().types) && ReservationsFit(Drifted().reservations)
    ensures Found(Drifted(), [0], Drift) == [0] && Found(Drifted(), [0], Oversell) == [0]
  {
    hide Has;
    DriftedFindings();
    CorrectionFits(Drifted(), 0);
    assert [0][..0] == [];
  }

  /** `--fix` stops at the oversold type and leaves the drift of the next one in place, although
      that one could have been corrected. */
  method FixStopsShort() returns (store: Store, done: nat, drift: seq<Id>, oversell: seq<Id>)
    ensures done == 0 && drift == [0] && oversell == [0] && store.Snapshot() == Drifted()
    ensures Has(store.Snapshot(), 1, Drift) && !Has(store.Snapshot(), 1, Oversell)
  {
    hide Has, ActualSold, ActualHeld, Corrected, TypesFit, ReservationsFit;
    DriftedFindings();
    DriftedReports();
    NothingCorrected(Drifted());
    store := new Store(Drifted());
    done, drift, oversell := store.RunReconciliation([0, 1], true);
  }
}

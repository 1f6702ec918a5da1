/** What the sales report says of a consistent database, in terms of orders, captures and refunds. */
module Turnover {
  import opened Sums
  import opened Schema
  import opened Invariants
  import opened Preservation
  import opened Runs
  import opened SalesReport
  import opened SalesTotals
  import opened Machine
  import opened Guarantees

  /** Days of 86,400 seconds, counted in microseconds. */
  predicate OnDay(o: Order, day: int) {
    day * 86_400_000_000 <= o.createdAt < (day + 1) * 86_400_000_000
  }

  /** The orders of an event and a day that were not declined. */
  function SoldOn(os: map<Id, Order>, event: Id, day: int): set<Id> {
    set o | o in os && !os[o].status.Failed? && os[o].event == event && OnDay(os[o], day)
  }

  function PriceOf(os: map<Id, Order>): Id -> int {
    o => if o in os then os[o].unitPrice * os[o].quantity else 0
  }

  function ServiceFeeOf(os: map<Id, Order>): Id -> int {
    o => if o in os then os[o].fees else 0
  }

  function TaxPaidOf(os: map<Id, Order>): Id -> int {
    o => if o in os then os[o].tax else 0
  }

  function CapturedOf(os: map<Id, Order>): Id -> int {
    o => if o in os then os[o].captured else 0
  }

  /** Every refund row, whatever its order. */
  function AmountOf(fs: map<Id, Refund>): Id -> int {
    f => if f in fs then fs[f].amount else 0
  }

  // ---------- which orders have a row, and which row ----------

  lemma DayMeans(o: Order, day: int)
    ensures OnDay(o, day) <==> o.createdAt / DAY == day
  {}

  lemma GroupMeans(db: Db, p: Period, k: Key)
    requires Inv(db) && InPeriod(k.day, p)
    ensures Group(db.orders, Reported(db.orders, p), k) == SoldOn(db.orders, k.event, k.day)
  {
    hide Inv, OnDay;
    InvBasics(db);
    var g := Group(db.orders, Reported(db.orders, p), k);
    forall o ensures o in g <==> o in SoldOn(db.orders, k.event, k.day) {
      if o in db.orders {
        DayMeans(db.orders[o], k.day);
      }
    }
  }

  /** Every order that was not declined has a row with its event, its title and its day, if that
      day lies in the period. */
  lemma EverySaleHasARow(db: Db, p: Period, report: seq<Row>, o: Id, day: int)
    requires IsReport(db, Reported(db.orders, p), report)
    requires o in db.orders && !db.orders[o].status.Failed? && OnDay(db.orders[o], day) && DayWithin(day, p)
    requires Inv(db)
    ensures db.orders[o].event in db.events
    ensures exists r :: r in report && r.event == db.orders[o].event && r.day == day
                        && r.title == db.events[r.event].title
  {
    hide Inv, IsReport, OnDay, Reported;
    var e := db.orders[o].event;
    EventOfOrder(db, o);
    GroupMeans(db, p, Key(e, day));
    assert o in SoldOn(db.orders, e, day);
    GroupHasRow(db, Reported(db.orders, p), report, Key(e, day), o);
    var r :| r in report && RowKey(r) == Key(e, day);
    RowMeans(db, p, report, r);
  }

  lemma EventOfOrder(db: Db, o: Id)
    requires Inv(db) && o in db.orders
    ensures db.orders[o].event in db.events
  {
    hide CountersExact, OrdersOk, OrdersMatch, ReservationsOk, KeysUnique;
  }

  lemma GroupHasRow(db: Db, sel: set<Id>, report: seq<Row>, k: Key, o: Id)
    requires IsReport(db, sel, report) && o in Group(db.orders, sel, k)
    ensures exists r :: r in report && RowKey(r) == k
  {
    hide RowsRight, InOrder, OneRowPerKey;
    assert HasKey(report, KeyOf(db.orders[o]));
    var i :| 0 <= i < |report| && RowKey(report[i]) == k;
    assert report[i] in report;
  }

  /** The row counts the orders of its event and day that were not declined; its columns are
      their price times quantity, their fees, their tax and what was refunded of them. */
  predicate Tells(db: Db, r: Row) {
    var g := SoldOn(db.orders, r.event, r.day);
    && g != {} && r.orders == |g|
    && r.gross == Total(g, PriceOf(db.orders)) && r.fees == Total(g, ServiceFeeOf(db.orders))
    && r.tax == Total(g, TaxPaidOf(db.orders)) && r.refunds == Total(g, BackOf(db.refunds))
    && r.net == r.gross + r.fees + r.tax - r.refunds
    && (r.event in db.events ==> r.title == db.events[r.event].title)
  }

  predicate DayWithin(day: int, p: Period) {
    (p.first.Some? ==> p.first.value <= day) && (p.last.Some? ==> day <= p.last.value)
  }

  lemma RowMeans(db: Db, p: Period, report: seq<Row>, r: Row)
    requires IsReport(db, Reported(db.orders, p), report) && r in report && Inv(db)
    ensures Tells(db, r) && DayWithin(r.day, p)
  {
    hide Inv, InOrder, OneRowPerKey, Complete, OnDay, Total, BackOf;
    RowDays(db, p, report);
    GroupMeans(db, p, RowKey(r));
    var g := SoldOn(db.orders, r.event, r.day);
    forall o | o in g ensures GrossOf(db.orders)(o) == PriceOf(db.orders)(o) {
      BooksOf(db, o);
    }
    TotalAgree(g, GrossOf(db.orders), PriceOf(db.orders));
    TotalAgree(g, FeesOf(db.orders), ServiceFeeOf(db.orders));
    TotalAgree(g, TaxOf(db.orders), TaxPaidOf(db.orders));
  }

  // ---------- the unfiltered report ----------

  /** The orders that were not declined. */
  function NotDeclined(os: map<Id, Order>): set<Id> {
    set o | o in os && !os[o].status.Failed?
  }

  lemma UnfilteredMeans(db: Db)
    requires Inv(db)
    ensures Reported(db.orders, Period(None, None)) == NotDeclined(db.orders)
  {
    hide Inv;
    InvBasics(db);
  }

  /** A sum taken refund by refund is the sum taken order by order. */
  lemma {:induction false} RefundsByOrder(fs: map<Id, Refund>, s: set<Id>)
    ensures Total(s, BackOf(fs)) == Total(fs.Keys, AmountWithin(fs, s))
    decreases |s|
  {
    if s == {} {
      TotalZero(fs.Keys, AmountWithin(fs, s));
    } else {
      var o := Least(s);
      RefundsByOrder(fs, s - {o});
      SumTogether(fs.Keys, AmountWithin(fs, s - {o}), RefundWeight(fs, o), AmountWithin(fs, s));
    }
  }

  function AmountWithin(fs: map<Id, Refund>, s: set<Id>): Id -> int {
    f => if f in fs && fs[f].order in s then fs[f].amount else 0
  }

  lemma {:induction false} SumTogether(s: set<Id>, f: Id -> int, g: Id -> int, h: Id -> int)
    requires forall k | k in s :: h(k) == f(k) + g(k)
    ensures Total(s, h) == Total(s, f) + Total(s, g)
    decreases |s|
  {
    if s != {} {
      SumTogether(s - {Least(s)}, f, g, h);
    }
  }

  /** A declined order captured nothing and has no refund; the others captured what they charge. */
  lemma BooksMean(db: Db, o: Id)
    requires Inv(db) && o in db.orders
    ensures if db.orders[o].status.Failed? then db.orders[o].captured == 0 && RefundedCents(db.refunds, o) == 0
            else db.orders[o].captured == db.orders[o].total + db.orders[o].fees + db.orders[o].tax
  {
    hide Inv, Constraints, UnitCharge, RefundedCents;
    BooksOf(db, o);
    var n := TallyOf(db.tickets, db.refunds, o);
    if db.orders[o].status.Failed? {
      assert n.refunds == 0 && RefundsOf(db.refunds, o) == {};
      NoRefunds(db.refunds, o);
    }
  }

  lemma {:induction false} ChargesAreCaptured(os: map<Id, Order>, s: set<Id>)
    requires s <= os.Keys && forall o | o in s :: os[o].captured == os[o].total + os[o].fees + os[o].tax
    ensures Total(s, GrossOf(os)) + Total(s, FeesOf(os)) + Total(s, TaxOf(os)) == Total(s, CapturedOf(os))
    decreases |s|
  {
    if s != {} {
      ChargesAreCaptured(os, s - {Least(s)});
    }
  }

  /** Over the unfiltered report the orders column is the number of orders that were not declined,
      gross, fees and tax together are everything that was captured, and the refunds column is
      everything that was paid back. */
  lemma UnfilteredTotals(db: Db, report: seq<Row>)
    requires Inv(db) && IsReport(db, Reported(db.orders, Period(None, None)), report)
    ensures SumOver(report, Orders) == |NotDeclined(db.orders)|
    ensures SumOver(report, Gross) + SumOver(report, Fees) + SumOver(report, Tax)
         == Total(db.orders.Keys, CapturedOf(db.orders))
    ensures SumOver(report, Refunds) == Total(db.refunds.Keys, AmountOf(db.refunds))
  {
    hide Inv, IsReport, Total, GrossOf, FeesOf, TaxOf, BackOf, Reported;
    UnfilteredMeans(db);
    var s := NotDeclined(db.orders);
    ColumnTotal(db, s, report, Orders);
    ColumnTotal(db, s, report, Gross);
    ColumnTotal(db, s, report, Fees);
    ColumnTotal(db, s, report, Tax);
    ColumnTotal(db, s, report, Refunds);
    TotalOfOnes(s);
    CapturedTotal(db, s);
    RefundTotal(db, s);
  }

  lemma CapturedTotal(db: Db, s: set<Id>)
    requires Inv(db) && s == NotDeclined(db.orders)
    ensures Total(s, GrossOf(db.orders)) + Total(s, FeesOf(db.orders)) + Total(s, TaxOf(db.orders))
         == Total(db.orders.Keys, CapturedOf(db.orders))
  {
    hide Inv, Total, GrossOf, FeesOf, TaxOf;
    forall o | o in db.orders
      ensures if o in s then db.orders[o].captured == db.orders[o].total + db.orders[o].fees + db.orders[o].tax
              else db.orders[o].captured == 0 {
      BooksMean(db, o);
    }
    ChargesAreCaptured(db.orders, s);
    var rest := db.orders.Keys - s;
    TotalZero(rest, CapturedOf(db.orders));
    assert db.orders.Keys == s + rest;
    TotalUnion(s, rest, CapturedOf(db.orders));
  }

  lemma RefundTotal(db: Db, s: set<Id>)
    requires Inv(db) && s == NotDeclined(db.orders)
    ensures Total(s, BackOf(db.refunds)) == Total(db.refunds.Keys, AmountOf(db.refunds))
  {
    hide Inv, Total, RefundedCents;
    forall o | o in db.orders.Keys - s ensures BackOf(db.refunds)(o) == 0 {
      BooksMean(db, o);
    }
    var rest := db.orders.Keys - s;
    TotalZero(rest, BackOf(db.refunds));
    assert db.orders.Keys == s + rest;
    TotalUnion(s, rest, BackOf(db.refunds));
    RefundsByOrder(db.refunds, db.orders.Keys);
    RefundsHaveOrders(db);
    TotalAgree(db.refunds.Keys, AmountWithin(db.refunds, db.orders.Keys), AmountOf(db.refunds));
  }

  lemma RefundsHaveOrders(db: Db)
    requires Inv(db)
    ensures forall f | f in db.refunds :: db.refunds[f].order in db.orders
  {
    hide CountersExact, OrdersOk, OrdersMatch, ReservationsOk, KeysUnique;
  }

  /** The same of every database some interleaved run can commit. */
  lemma ReportedTurnover(init: Db, steps: seq<Action>, d: Db, report: seq<Row>)
    requires Reached(init, steps, d) && IsReport(d, Reported(d.orders, Period(None, None)), report)
    ensures SumOver(report, Orders) == |NotDeclined(d.orders)|
    ensures SumOver(report, Gross) + SumOver(report, Fees) + SumOver(report, Tax)
         == Total(d.orders.Keys, CapturedOf(d.orders))
    ensures SumOver(report, Refunds) == Total(d.refunds.Keys, AmountOf(d.refunds))
    ensures forall o, day | o in d.orders && !d.orders[o].status.Failed? && OnDay(d.orders[o], day) ::
              exists r :: r in report && r.event == d.orders[o].event && r.day == day
  {
    hide Reached, Inv, IsReport, OnDay;
    ReachedIsSound(init, steps, d);
    UnfilteredTotals(d, report);
    forall o, day | o in d.orders && !d.orders[o].status.Failed? && OnDay(d.orders[o], day)
      ensures exists r :: r in report && r.event == d.orders[o].event && r.day == day {
      EverySaleHasARow(d, Period(None, None), report, o, day);
    }
  }

  // ---------- the order of titles ----------

  /** At position k the title a ends, or has the smaller character. */
  predicate DiffersAt(a: string, b: string, k: nat) {
    && k <= |a| && k <= |b| && a[..k] == b[..k]
    && (k == |a| || (k < |b| && a[k] < b[k]))
  }

  /** Titles are ordered as in a dictionary: the first difference decides, a beginning comes first. */
  lemma {:induction false} TitleOrderMeans(a: string, b: string)
    ensures TitleLE(a, b) <==> exists k :: DiffersAt(a, b, k)
  {
    if a == [] {
      assert DiffersAt(a, b, 0);
    } else if b == [] {
    } else {
      TitleOrderMeans(a[1..], b[1..]);
      if TitleLE(a, b) {
        if a[0] < b[0] {
          assert DiffersAt(a, b, 0);
        } else {
          var k: nat :| DiffersAt(a[1..], b[1..], k);
          assert a[..k + 1] == [a[0]] + a[1..][..k] && b[..k + 1] == [b[0]] + b[1..][..k];
          assert DiffersAt(a, b, k + 1);
        }
      }
      if k: nat :| DiffersAt(a, b, k) {
        if k > 0 {
          assert a[..k][0] == b[..k][0];
          assert a[1..][..k - 1] == a[..k][1..] && b[1..][..k - 1] == b[..k][1..];
          assert DiffersAt(a[1..], b[1..], k - 1);
        }
      }
    }
  }
}

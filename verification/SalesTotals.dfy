/** What the sales report adds up to. */
module SalesTotals {
  import opened Sums
  import opened Schema
  import opened Invariants
  import opened Preservation
  import opened SalesReport

  datatype Column = Orders | Gross | Fees | Tax | Refunds | Net

  function Cell(r: Row, c: Column): int {
    match c
    case Orders => r.orders
    case Gross => r.gross
    case Fees => r.fees
    case Tax => r.tax
    case Refunds => r.refunds
    case Net => r.net
  }

  /** What one order contributes to a column. */
  function Weight(db: Db, c: Column): Id -> int {
    match c
    case Orders => One()
    case Gross => GrossOf(db.orders)
    case Fees => FeesOf(db.orders)
    case Tax => TaxOf(db.orders)
    case Refunds => BackOf(db.refunds)
    case Net => NetOf(db.orders, db.refunds)
  }

  function One(): Id -> int {
    o => 1
  }

  /** A column summed over the rows. */
  function SumOver(report: seq<Row>, c: Column): int {
    if report == [] then 0 else SumOver(report[..|report| - 1], c) + Cell(report[|report| - 1], c)
  }

  /** Each reported order is counted in exactly one row, that of its event and day. */
  lemma EachOrderInOneRow(db: Db, sel: set<Id>, report: seq<Row>, o: Id)
    requires IsReport(db, sel, report) && o in sel && o in db.orders
    ensures exists i :: 0 <= i < |report| && o in Group(db.orders, sel, RowKey(report[i]))
              && forall j | 0 <= j < |report| && o in Group(db.orders, sel, RowKey(report[j])) :: j == i
  {
    hide RowsRight, InOrder, KeyOf;
    assert HasKey(report, KeyOf(db.orders[o]));
    var i :| 0 <= i < |report| && RowKey(report[i]) == KeyOf(db.orders[o]);
    assert o in Group(db.orders, sel, RowKey(report[i]));
    forall j | 0 <= j < |report| && o in Group(db.orders, sel, RowKey(report[j])) ensures j == i {
      assert RowKey(report[j]) == RowKey(report[i]);
    }
  }

  // ---------- column totals ----------

  /** The orders counted in the first rows. */
  function CountedIn(os: map<Id, Order>, sel: set<Id>, report: seq<Row>): set<Id> {
    set o | o in sel && o in os && HasKey(report, KeyOf(os[o]))
  }

  lemma CountedInGrows(os: map<Id, Order>, sel: set<Id>, report: seq<Row>, r: Row)
    requires !HasKey(report, RowKey(r))
    ensures CountedIn(os, sel, report + [r]) == CountedIn(os, sel, report) + Group(os, sel, RowKey(r))
    ensures CountedIn(os, sel, report) !! Group(os, sel, RowKey(r))
  {
    hide KeyOf;
    forall k ensures HasKey(report + [r], k) <==> HasKey(report, k) || k == RowKey(r) {
      if HasKey(report, k) {
        var i :| 0 <= i < |report| && RowKey(report[i]) == k;
        assert (report + [r])[i] == report[i];
      }
      if k == RowKey(r) {
        assert RowKey((report + [r])[|report|]) == k;
      }
    }
  }

  lemma {:induction false} ColumnOfPrefix(db: Db, sel: set<Id>, report: seq<Row>, c: Column)
    requires OneRowPerKey(report) && RowsRight(db, sel, report)
    ensures SumOver(report, c) == Total(CountedIn(db.orders, sel, report), Weight(db, c))
  {
    hide Total, Group, RowKey, KeyOf, AsRow, BucketFor, Weight, Cell;
    if report == [] {
      assert CountedIn(db.orders, sel, report) == {};
      TotalZero({}, Weight(db, c));
    } else {
      var n := |report| - 1;
      ColumnOfPrefix(db, sel, report[..n], c);
      assert report == report[..n] + [report[n]] && report[n] in report;
      assert !HasKey(report[..n], RowKey(report[n]));
      CountedInGrows(db.orders, sel, report[..n], report[n]);
      TotalUnion(CountedIn(db.orders, sel, report[..n]), Group(db.orders, sel, RowKey(report[n])), Weight(db, c));
      CellIsTotal(db, sel, report[n], c);
    }
  }

  /** Every cell of a row sums what its orders contribute. */
  lemma CellIsTotal(db: Db, sel: set<Id>, r: Row, c: Column)
    requires r == AsRow(RowKey(r), BucketFor(db, sel, RowKey(r)))
    ensures Cell(r, c) == Total(Group(db.orders, sel, RowKey(r)), Weight(db, c))
  {
    hide Total, Title, GrossOf, FeesOf, TaxOf, BackOf, NetOf, KeyOf;
    var g := Group(db.orders, sel, RowKey(r));
    TotalOfOnes(g);
    NetIsSum(g, db.orders, db.refunds);
  }

  lemma {:induction false} TotalOfOnes(s: set<Id>)
    ensures Total(s, One()) == |s|
    decreases |s|
  {
    if s != {} {
      TotalOfOnes(s - {Least(s)});
    }
  }

  lemma {:induction false} NetIsSum(g: set<Id>, os: map<Id, Order>, fs: map<Id, Refund>)
    requires g <= os.Keys
    ensures Total(g, NetOf(os, fs))
         == Total(g, GrossOf(os)) + Total(g, FeesOf(os)) + Total(g, TaxOf(os)) - Total(g, BackOf(fs))
    decreases |g|
  {
    hide RefundedCents;
    if g != {} {
      NetIsSum(g - {Least(g)}, os, fs);
    }
  }

  /** Every column adds up to the total over the reported orders: none is lost or counted twice. */
  lemma ColumnTotal(db: Db, sel: set<Id>, report: seq<Row>, c: Column)
    requires IsReport(db, sel, report) && sel <= db.orders.Keys
    ensures SumOver(report, c) == Total(sel, Weight(db, c))
  {
    hide RowsRight, InOrder, OneRowPerKey, KeyOf, Weight;
    ColumnOfPrefix(db, sel, report, c);
    assert CountedIn(db.orders, sel, report) == sel;
  }

  // ---------- adjacent periods ----------

  /** A row's group does not reach beyond its day, so selecting more days leaves it alone. */
  lemma SameGroup(os: map<Id, Order>, sel: set<Id>, more: set<Id>, k: Key)
    requires forall o | o in more && o in os && KeyOf(os[o]) == k :: o in sel
    requires sel <= more
    ensures Group(os, sel, k) == Group(os, more, k)
  {}

  lemma RowsStayRight(db: Db, sel: set<Id>, more: set<Id>, report: seq<Row>)
    requires RowsRight(db, sel, report) && sel <= more
    requires forall o | o in more && o in db.orders :: HasKey(report, KeyOf(db.orders[o])) ==> o in sel
    ensures RowsRight(db, more, report)
  {
    hide KeyOf, AsRow, Aggregate;
    forall r | r in report ensures Group(db.orders, sel, RowKey(r)) == Group(db.orders, more, RowKey(r)) {
      var i :| 0 <= i < |report| && report[i] == r;
      assert HasKey(report, RowKey(r));
      SameGroup(db.orders, sel, more, RowKey(r));
    }
  }

  /** The days of a report's rows lie in its period. */
  lemma RowDays(db: Db, p: Period, report: seq<Row>)
    requires RowsRight(db, Reported(db.orders, p), report)
    ensures forall r | r in report :: InPeriod(r.day, p)
    ensures forall k | HasKey(report, k) :: InPeriod(k.day, p)
  {
    hide AsRow, BucketFor;
    forall r | r in report ensures InPeriod(r.day, p) {
      var o :| o in Group(db.orders, Reported(db.orders, p), RowKey(r));
    }
  }

  /** The reports of two adjacent periods, one after the other, are the report of their union. */
  lemma AdjacentReportsConcatenate(db: Db, first: Option<int>, last: Option<int>, day: int, a: seq<Row>, b: seq<Row>)
    requires (first.Some? ==> first.value <= day + 1) && (last.Some? ==> day <= last.value)
    requires IsReport(db, Reported(db.orders, Period(first, Some(day))), a)
    requires IsReport(db, Reported(db.orders, Period(Some(day + 1), last)), b)
    ensures IsReport(db, Reported(db.orders, Period(first, last)), a + b)
  {
    hide AsRow, BucketFor, Group, TitleLE, Reported, RowsRight, KeyOf;
    var before, after, all := Period(first, Some(day)), Period(Some(day + 1), last), Period(first, last);
    PeriodsSplit(db.orders, first, last, day);
    RowDays(db, before, a);
    RowDays(db, after, b);
    RowsStayRight(db, Reported(db.orders, before), Reported(db.orders, all), a);
    RowsStayRight(db, Reported(db.orders, after), Reported(db.orders, all), b);
    RowsAppend(db, Reported(db.orders, all), a, b);
    forall o | o in Reported(db.orders, all) && o in db.orders ensures HasKey(a + b, KeyOf(db.orders[o])) {
      KeyInEither(a, b, KeyOf(db.orders[o]));
    }
  }

  lemma RowsAppend(db: Db, sel: set<Id>, a: seq<Row>, b: seq<Row>)
    requires RowsRight(db, sel, a) && RowsRight(db, sel, b)
    ensures RowsRight(db, sel, a + b)
  {
    hide AsRow, BucketFor, Group;
  }

  lemma KeyInEither(a: seq<Row>, b: seq<Row>, k: Key)
    requires HasKey(a, k) || HasKey(b, k)
    ensures HasKey(a + b, k)
  {
    if HasKey(a, k) {
      var i :| 0 <= i < |a| && RowKey(a[i]) == k;
      assert RowKey((a + b)[i]) == k;
    } else {
      var i :| 0 <= i < |b| && RowKey(b[i]) == k;
      assert RowKey((a + b)[|a| + i]) == k;
    }
  }

  lemma PeriodsSplit(os: map<Id, Order>, first: Option<int>, last: Option<int>, day: int)
    requires (first.Some? ==> first.value <= day + 1) && (last.Some? ==> day <= last.value)
    ensures var a, b := Reported(os, Period(first, Some(day))), Reported(os, Period(Some(day + 1), last));
            && Reported(os, Period(first, last)) == a + b && a !! b
            && (forall o | o in a :: o in os && KeyOf(os[o]).day <= day)
            && (forall o | o in b :: o in os && KeyOf(os[o]).day > day)
  {
    hide Counted, KeyOf;
  }

  /** Whatever reports are drawn, those of two adjacent periods have the rows of the report of
      their union, so every column adds up. */
  lemma AdjacentReportsAdd(db: Db, first: Option<int>, last: Option<int>, day: int,
                           a: seq<Row>, b: seq<Row>, whole: seq<Row>, c: Column)
    requires (first.Some? ==> first.value <= day + 1) && (last.Some? ==> day <= last.value)
    requires IsReport(db, Reported(db.orders, Period(first, Some(day))), a)
    requires IsReport(db, Reported(db.orders, Period(Some(day + 1), last)), b)
    requires IsReport(db, Reported(db.orders, Period(first, last)), whole)
    ensures forall r :: r in whole <==> r in a || r in b
    ensures SumOver(whole, c) == SumOver(a, c) + SumOver(b, c)
  {
    hide IsReport, Reported, Total, KeyOf, Weight;
    var before, after, all := Reported(db.orders, Period(first, Some(day))),
                              Reported(db.orders, Period(Some(day + 1), last)),
                              Reported(db.orders, Period(first, last));
    AdjacentReportsConcatenate(db, first, last, day, a, b);
    SameRows(db, all, whole, a + b);
    PeriodsSplit(db.orders, first, last, day);
    ColumnTotal(db, before, a, c);
    ColumnTotal(db, after, b, c);
    ColumnTotal(db, all, whole, c);
    TotalUnion(before, after, Weight(db, c));
  }

  /** Two reports on the same orders have the same rows; only ties may be ordered differently. */
  lemma SameRows(db: Db, sel: set<Id>, c: seq<Row>, d: seq<Row>)
    requires IsReport(db, sel, c) && IsReport(db, sel, d)
    ensures forall r :: r in c <==> r in d
  {
    hide AsRow, BucketFor, InOrder, OneRowPerKey;
    forall r | r in c ensures r in d { RowIn(db, sel, c, d, r); }
    forall r | r in d ensures r in c { RowIn(db, sel, d, c, r); }
  }

  lemma RowIn(db: Db, sel: set<Id>, c: seq<Row>, d: seq<Row>, r: Row)
    requires IsReport(db, sel, c) && IsReport(db, sel, d) && r in c
    ensures r in d
  {
    hide AsRow, BucketFor, InOrder, OneRowPerKey, KeyOf;
    var o :| o in Group(db.orders, sel, RowKey(r));
    assert HasKey(d, KeyOf(db.orders[o]));
    var i :| 0 <= i < |d| && RowKey(d[i]) == RowKey(r);
    assert d[i] in d;
  }

  // ---------- net revenue ----------

  /** The unit charge of an order times its ACTIVE tickets. */
  function ActiveCharge(os: map<Id, Order>, ts: map<Id, Ticket>): Id -> int {
    o => if o in os && os[o].quantity >= 1 then UnitCharge(os[o]) * |ActiveTickets(ts, o)| else 0
  }

  /** An order's captured money less its refunds is the charge of its ACTIVE tickets. */
  lemma OrderNet(db: Db, o: Id)
    requires Inv(db) && o in db.orders
    ensures var w := ActiveCharge(db.orders, db.tickets);
            && w(o) >= 0
            && (Counted(db.orders[o]) ==> NetOf(db.orders, db.refunds)(o) == w(o))
            && (!Counted(db.orders[o]) ==> w(o) == 0)
  {
    hide Inv, Constraints, UnitCharge, RefundedCents, ActiveTickets, OrderTickets, RefundsOf;
    BooksOf(db, o);
    OrderKnown(db, o);
    NeverNegative(db, o, |ActiveTickets(db.tickets, o)|);
  }

  /** In every consistent database the net revenue of the unfiltered report is what the ACTIVE
      tickets are worth, and no row is negative. */
  lemma NetRevenueIsActiveCharge(db: Db, report: seq<Row>)
    requires Inv(db) && IsReport(db, Reported(db.orders, Period(None, None)), report)
    ensures SumOver(report, Net) == Total(db.orders.Keys, ActiveCharge(db.orders, db.tickets))
    ensures forall r | r in report :: r.net >= 0
  {
    hide Inv, IsReport, Counted, NetOf, ActiveCharge, KeyOf, Total;
    var sel := Reported(db.orders, Period(None, None));
    var net, worth := NetOf(db.orders, db.refunds), ActiveCharge(db.orders, db.tickets);
    ColumnTotal(db, sel, report, Net);
    forall o | o in db.orders
      ensures worth(o) >= 0 && (o in sel ==> net(o) == worth(o)) && (o !in sel ==> worth(o) == 0) {
      OrderNet(db, o);
    }
    TotalAgree(sel, net, worth);
    var rest := db.orders.Keys - sel;
    TotalZero(rest, worth);
    assert db.orders.Keys == sel + rest;
    TotalUnion(sel, rest, worth);
    RowsNonNegative(db, sel, report, net);
  }

  lemma RowsNonNegative(db: Db, sel: set<Id>, report: seq<Row>, net: Id -> int)
    requires IsReport(db, sel, report) && net == NetOf(db.orders, db.refunds)
    requires forall o | o in sel && o in db.orders :: net(o) >= 0
    ensures forall r | r in report :: r.net >= 0
  {
    hide Total, NetOf, BucketFor, AsRow, InOrder;
    forall r | r in report ensures r.net >= 0 {
      CellIsTotal(db, sel, r, Net);
      TotalBounds(Group(db.orders, sel, RowKey(r)), net);
    }
  }
}

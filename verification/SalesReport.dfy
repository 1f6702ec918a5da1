/** The daily sales report: the bucket loop refines a group-by, adjacent periods add up, and
    its net revenue is what the ACTIVE tickets are worth. */
module SalesReport {
  import opened Sums
  import opened Schema
  import opened Services

  /** Optional first and last day, both inclusive. */
  datatype Period = Period(first: Option<int>, last: Option<int>)

  datatype Key = Key(event: Id, day: int)

  datatype Bucket = Bucket(title: string, orders: int, gross: int, fees: int, tax: int, refunds: int)

  datatype Item = Item(key: Key, bucket: Bucket)

  datatype Row = Row(
    day: int, event: Id, title: string, orders: int, gross: int, fees: int, tax: int, refunds: int, net: int)

  // ---------- the group-by ----------

  predicate Counted(o: Order) {
    o.status.Confirmed? || o.status.PartiallyRefunded? || o.status.Refunded?
  }

  /** created_at is UTC; days count from the epoch. */
  function KeyOf(o: Order): Key {
    Key(o.event, o.createdAt / DAY)
  }

  predicate InPeriod(day: int, p: Period) {
    (p.first.Some? ==> p.first.value <= day) && (p.last.Some? ==> day <= p.last.value)
  }

  function Reported(os: map<Id, Order>, p: Period): set<Id> {
    set o | o in os && Counted(os[o]) && InPeriod(KeyOf(os[o]).day, p)
  }

  function Group(os: map<Id, Order>, sel: set<Id>, k: Key): set<Id> {
    set o | o in sel && o in os && KeyOf(os[o]) == k
  }

  function GrossOf(os: map<Id, Order>): Id -> int {
    o => if o in os then os[o].total else 0
  }

  function FeesOf(os: map<Id, Order>): Id -> int {
    o => if o in os then os[o].fees else 0
  }

  function TaxOf(os: map<Id, Order>): Id -> int {
    o => if o in os then os[o].tax else 0
  }

  function BackOf(fs: map<Id, Refund>): Id -> int {
    (o: Id) => RefundedCents(fs, o)
  }

  function NetOf(os: map<Id, Order>, fs: map<Id, Refund>): Id -> int {
    o => if o in os then AmountDue(os[o]) - RefundedCents(fs, o) else 0
  }

  function Title(db: Db, event: Id): string {
    if event in db.events then db.events[event].title else ""
  }

  function Aggregate(db: Db, title: string, g: set<Id>): Bucket {
    Bucket(title, |g|, Total(g, GrossOf(db.orders)), Total(g, FeesOf(db.orders)), Total(g, TaxOf(db.orders)),
           Total(g, BackOf(db.refunds)))
  }

  /** The aggregates of one group of orders. */
  function BucketFor(db: Db, sel: set<Id>, k: Key): Bucket {
    Aggregate(db, Title(db, k.event), Group(db.orders, sel, k))
  }

  function AsRow(k: Key, b: Bucket): Row {
    Row(k.day, k.event, b.title, b.orders, b.gross, b.fees, b.tax, b.refunds, b.gross + b.fees + b.tax - b.refunds)
  }

  function RowKey(r: Row): Key {
    Key(r.event, r.day)
  }

  /** Python's order on strings, by code points. */
  predicate TitleLE(a: string, b: string) {
    a == [] || (b != [] && (a[0] < b[0] || (a[0] == b[0] && TitleLE(a[1..], b[1..]))))
  }

  predicate NotAfter(day: int, title: string, day': int, title': string) {
    day < day' || (day == day' && TitleLE(title, title'))
  }

  predicate OneRowPerKey(report: seq<Row>) {
    forall i, j | 0 <= i < j < |report| :: RowKey(report[i]) != RowKey(report[j])
  }

  predicate InOrder(report: seq<Row>) {
    forall i, j | 0 <= i < j < |report| ::
      NotAfter(report[i].day, report[i].title, report[j].day, report[j].title)
  }

  predicate RowsRight(db: Db, sel: set<Id>, report: seq<Row>) {
    forall r | r in report :: r == AsRow(RowKey(r), BucketFor(db, sel, RowKey(r)))
        && Group(db.orders, sel, RowKey(r)) != {}
  }

  predicate HasKey(report: seq<Row>, k: Key) {
    exists i :: 0 <= i < |report| && RowKey(report[i]) == k
  }

  predicate Complete(os: map<Id, Order>, sel: set<Id>, report: seq<Row>) {
    forall o | o in sel && o in os :: HasKey(report, KeyOf(os[o]))
  }

  /** A report on the orders `sel`: one row per (event, day) that has any, by day then title. */
  predicate IsReport(db: Db, sel: set<Id>, report: seq<Row>) {
    && RowsRight(db, sel, report) && Complete(db.orders, sel, report)
    && OneRowPerKey(report) && InOrder(report)
  }

  // ---------- sorted ----------

  lemma {:induction false} TitleTotal(a: string, b: string)
    ensures TitleLE(a, b) || TitleLE(b, a)
  {
    if a != [] && b != [] {
      TitleTotal(a[1..], b[1..]);
    }
  }

  lemma {:induction false} TitleTransitive(a: string, b: string, c: string)
    requires TitleLE(a, b) && TitleLE(b, c)
    ensures TitleLE(a, c)
  {
    if a != [] && a[0] == b[0] && b[0] == c[0] {
      TitleTransitive(a[1..], b[1..], c[1..]);
    }
  }

  predicate ItemLE(a: Item, b: Item) {
    NotAfter(a.key.day, a.bucket.title, b.key.day, b.bucket.title)
  }

  predicate ItemsSorted(items: seq<Item>) {
    forall i, j | 0 <= i < j < |items| :: ItemLE(items[i], items[j])
  }

  predicate KeysApart(items: seq<Item>) {
    forall i, j | 0 <= i < j < |items| :: items[i].key != items[j].key
  }

  /** Stable insertion after everything not greater. */
  function Insert(items: seq<Item>, x: Item): seq<Item> {
    if items == [] || ItemLE(items[|items| - 1], x) then items + [x]
    else Insert(items[..|items| - 1], x) + [items[|items| - 1]]
  }

  /** Python's `sorted` on (day, title). */
  function SortItems(items: seq<Item>): seq<Item> {
    if items == [] then [] else Insert(SortItems(items[..|items| - 1]), items[|items| - 1])
  }

  lemma {:induction false} InsertMembers(items: seq<Item>, x: Item)
    ensures forall y :: y in Insert(items, x) <==> y in items || y == x
  {
    if items != [] && !ItemLE(items[|items| - 1], x) {
      var n := |items| - 1;
      InsertMembers(items[..n], x);
      assert items == items[..n] + [items[n]];
    }
  }

  lemma {:induction false} InsertSorts(items: seq<Item>, x: Item)
    requires ItemsSorted(items)
    ensures ItemsSorted(Insert(items, x))
  {
    hide NotAfter;
    if items != [] {
      var n := |items| - 1;
      ItemTotal(items[n], x);
      if ItemLE(items[n], x) {
        forall i | 0 <= i < |items| ensures ItemLE(items[i], x) {
          if i < n {
            ItemTransitive(items[i], items[n], x);
          }
        }
      } else {
        InsertSorts(items[..n], x);
        InsertMembers(items[..n], x);
        forall y | y in Insert(items[..n], x) ensures ItemLE(y, items[n]) {}
      }
    }
  }

  lemma ItemTotal(a: Item, b: Item)
    ensures ItemLE(a, b) || ItemLE(b, a)
  {
    TitleTotal(a.bucket.title, b.bucket.title);
  }

  lemma ItemTransitive(a: Item, b: Item, c: Item)
    requires ItemLE(a, b) && ItemLE(b, c)
    ensures ItemLE(a, c)
  {
    if a.key.day == b.key.day == c.key.day {
      TitleTransitive(a.bucket.title, b.bucket.title, c.bucket.title);
    }
  }

  lemma {:induction false} InsertApart(items: seq<Item>, x: Item)
    requires KeysApart(items) && forall y | y in items :: y.key != x.key
    ensures KeysApart(Insert(items, x))
  {
    hide NotAfter;
    if items != [] && !ItemLE(items[|items| - 1], x) {
      var n := |items| - 1;
      InsertApart(items[..n], x);
      InsertMembers(items[..n], x);
      forall y | y in Insert(items[..n], x) ensures y.key != items[n].key {}
    }
  }

  lemma {:induction false} SortSorts(items: seq<Item>)
    requires KeysApart(items)
    ensures ItemsSorted(SortItems(items)) && KeysApart(SortItems(items))
    ensures forall y :: y in SortItems(items) <==> y in items
  {
    hide ItemLE;
    if items != [] {
      var n := |items| - 1;
      SortSorts(items[..n]);
      InsertMembers(SortItems(items[..n]), items[n]);
      InsertSorts(SortItems(items[..n]), items[n]);
      InsertApart(SortItems(items[..n]), items[n]);
      assert items == items[..n] + [items[n]];
    }
  }

  /** x comes somewhere before y. */
  predicate Precedes(items: seq<Item>, x: Item, y: Item) {
    exists i, j :: 0 <= i < j < |items| && items[i] == x && items[j] == y
  }

  lemma PrecedesExtended(items: seq<Item>, z: Item, x: Item, y: Item)
    requires Precedes(items, x, y) || (x in items && y == z)
    ensures Precedes(items + [z], x, y)
  {
    if Precedes(items, x, y) {
      var i, j :| 0 <= i < j < |items| && items[i] == x && items[j] == y;
      assert (items + [z])[i] == x && (items + [z])[j] == y;
    } else {
      var i :| 0 <= i < |items| && items[i] == x;
      assert (items + [z])[i] == x && (items + [z])[|items|] == y;
    }
  }

  lemma {:induction false} InsertStable(items: seq<Item>, z: Item, x: Item, y: Item)
    requires ItemsSorted(items)
    requires Precedes(items, x, y) || (x in items && y == z && ItemLE(x, z))
    ensures Precedes(Insert(items, z), x, y)
  {
    hide NotAfter;
    var n := |items| - 1;
    if ItemLE(items[n], z) {
      PrecedesExtended(items, z, x, y);
    } else {
      InsertMembers(items[..n], z);
      if Precedes(items, x, y) {
        var i, j :| 0 <= i < j < |items| && items[i] == x && items[j] == y;
        if j < n {
          assert items[..n][i] == x && items[..n][j] == y;
          InsertStable(items[..n], z, x, y);
        } else {
          assert items[..n][i] == x;
        }
      } else {
        var i :| 0 <= i < |items| && items[i] == x;
        assert i < n;
        assert items[..n][i] == x;
        InsertStable(items[..n], z, x, y);
      }
      PrecedesExtended(Insert(items[..n], z), items[n], x, y);
    }
  }

  /** The sort is stable: rows that the day and the title do not tell apart keep their order. */
  lemma {:induction false} SortStable(items: seq<Item>, x: Item, y: Item)
    requires KeysApart(items) && Precedes(items, x, y) && ItemLE(x, y)
    ensures Precedes(SortItems(items), x, y)
  {
    hide ItemLE, Insert;
    var n := |items| - 1;
    var i, j :| 0 <= i < j < |items| && items[i] == x && items[j] == y;
    SortSorts(items[..n]);
    assert items[..n][i] == x;
    if j < n {
      assert items[..n][j] == y;
      SortStable(items[..n], x, y);
    }
    InsertStable(SortItems(items[..n]), items[n], x, y);
  }

  // ---------- the bucket loop ----------

  function Add(b: Bucket, o: Order, back: int): Bucket {
    b.(orders := b.orders + 1, gross := b.gross + o.total, fees := b.fees + o.fees, tax := b.tax + o.tax,
       refunds := b.refunds + back)
  }

  /** One more order changes its own bucket and no other. */
  lemma BucketGrows(db: Db, sel: set<Id>, o: Id, k: Key)
    requires o in db.orders && o !in sel
    ensures BucketFor(db, sel + {o}, k) ==
            if KeyOf(db.orders[o]) == k then Add(BucketFor(db, sel, k), db.orders[o], RefundedCents(db.refunds, o))
            else BucketFor(db, sel, k)
    ensures Group(db.orders, sel + {o}, k) == Group(db.orders, sel, k) + if KeyOf(db.orders[o]) == k then {o} else {}
  {
    hide Aggregate, KeyOf, Title;
    GroupGrows(db.orders, sel, o, k);
    if KeyOf(db.orders[o]) == k {
      AggregateGrows(db, Title(db, k.event), Group(db.orders, sel, k), o);
    }
  }

  lemma GroupGrows(os: map<Id, Order>, sel: set<Id>, o: Id, k: Key)
    requires o in os && o !in sel
    ensures Group(os, sel + {o}, k) == (if KeyOf(os[o]) == k then Group(os, sel, k) + {o} else Group(os, sel, k))
    ensures o !in Group(os, sel, k)
  {
    hide KeyOf;
  }

  lemma AggregateGrows(db: Db, title: string, g: set<Id>, o: Id)
    requires o in db.orders && o !in g
    ensures Aggregate(db, title, g + {o}) == Add(Aggregate(db, title, g), db.orders[o], RefundedCents(db.refunds, o))
  {
    hide Total, RefundedCents;
    ColumnGrows(g, GrossOf(db.orders), o);
    ColumnGrows(g, FeesOf(db.orders), o);
    ColumnGrows(g, TaxOf(db.orders), o);
    ColumnGrows(g, BackOf(db.refunds), o);
  }

  lemma ColumnGrows(g: set<Id>, w: Id -> int, o: Id)
    requires o !in g
    ensures Total(g + {o}, w) == Total(g, w) + w(o)
  {
    TotalPoint(g, w, w, o);
  }

  /** The dictionary holds the group-by of the orders seen so far. */
  ghost predicate BucketsRight(db: Db, sel: set<Id>, buckets: map<Key, Bucket>, keys: seq<Key>) {
    && (forall k | k in buckets :: buckets[k] == BucketFor(db, sel, k) && Group(db.orders, sel, k) != {})
    && (forall o | o in sel && o in db.orders :: KeyOf(db.orders[o]) in buckets)
    && (forall k :: k in keys <==> k in buckets)
    && (forall i, j | 0 <= i < j < |keys| :: keys[i] != keys[j])
  }

  lemma EmptyBucket(db: Db, sel: set<Id>, k: Key)
    requires Group(db.orders, sel, k) == {}
    ensures BucketFor(db, sel, k) == Bucket(Title(db, k.event), 0, 0, 0, 0, 0)
  {}

  lemma NoGroup(os: map<Id, Order>, sel: set<Id>, k: Key)
    requires forall o | o in sel && o in os :: KeyOf(os[o]) != k
    ensures Group(os, sel, k) == {}
  {}

  /** setdefault, then the five additions. */
  lemma BucketStep(db: Db, sel: set<Id>, buckets: map<Key, Bucket>, keys: seq<Key>, o: Id)
    requires BucketsRight(db, sel, buckets, keys) && o in db.orders && o !in sel
    ensures var k := KeyOf(db.orders[o]);
            var b := if k in buckets then buckets[k] else Bucket(Title(db, k.event), 0, 0, 0, 0, 0);
            BucketsRight(db, sel + {o}, buckets[k := Add(b, db.orders[o], RefundedCents(db.refunds, o))],
                         if k in buckets then keys else keys + [k])
  {
    hide BucketFor, RefundedCents, Add, Title, KeyOf, Group;
    var k := KeyOf(db.orders[o]);
    if k !in buckets {
      NoGroup(db.orders, sel, k);
      EmptyBucket(db, sel, k);
    }
    forall k' ensures BucketFor(db, sel + {o}, k') ==
        (if k == k' then Add(BucketFor(db, sel, k'), db.orders[o], RefundedCents(db.refunds, o))
         else BucketFor(db, sel, k'))
      && Group(db.orders, sel + {o}, k') == Group(db.orders, sel, k') + if k == k' then {o} else {}
    {
      BucketGrows(db, sel, o, k');
    }
  }

  lemma NoRefunds(fs: map<Id, Refund>, o: Id)
    requires RefundsOf(fs, o) == {}
    ensures RefundedCents(fs, o) == 0
  {
    forall f | f in fs.Keys ensures RefundWeight(fs, o)(f) == 0 {
      assert f !in RefundsOf(fs, o);
    }
    TotalZero(fs.Keys, RefundWeight(fs, o));
  }

  /** Sum('amount_cents') per order; orders without refunds have no entry. */
  function RefundTotals(fs: map<Id, Refund>, orders: seq<Id>): map<Id, int> {
    map o | o in orders && RefundsOf(fs, o) != {} :: RefundedCents(fs, o)
  }

  function Get(totals: map<Id, int>, o: Id): int {
    if o in totals then totals[o] else 0
  }

  lemma RefundTotalsRight(fs: map<Id, Refund>, orders: seq<Id>)
    ensures forall o | o in orders :: Get(RefundTotals(fs, orders), o) == RefundedCents(fs, o)
  {
    hide RefundedCents;
    forall o | o in orders ensures Get(RefundTotals(fs, orders), o) == RefundedCents(fs, o) {
      if RefundsOf(fs, o) == {} {
        NoRefunds(fs, o);
      }
    }
  }

  method FillBuckets(db: Db, orders: seq<Id>) returns (buckets: map<Key, Bucket>, keys: seq<Key>)
    requires Distinct(orders) && forall o | o in orders :: o in db.orders
    ensures BucketsRight(db, Members(orders), buckets, keys)
  {
    hide BucketsRight, RefundedCents, Add, KeyOf, Title, Get, RefundTotals;
    var refundTotals := RefundTotals(db.refunds, orders);
    RefundTotalsRight(db.refunds, orders);
    buckets, keys := map[], [];
    NoBuckets(db);
    var i := 0;
    while i < |orders|
      invariant 0 <= i <= |orders|
      invariant BucketsRight(db, Members(orders[..i]), buckets, keys)
    {
      var o := orders[i];
      OneMoreMember(orders, i);
      BucketStep(db, Members(orders[..i]), buckets, keys, o);
      ghost var before := buckets;
      var key := KeyOf(db.orders[o]);
      if key !in buckets {
        buckets := buckets[key := Bucket(Title(db, key.event), 0, 0, 0, 0, 0)];
        keys := keys + [key];
      }
      buckets := buckets[key := Add(buckets[key], db.orders[o], Get(refundTotals, o))];
      assert buckets == before[key := buckets[key]];
      i := i + 1;
    }
    assert orders[..i] == orders;
  }

  lemma OneMoreMember(xs: seq<Id>, i: nat)
    requires Distinct(xs) && i < |xs|
    ensures Members(xs[..i + 1]) == Members(xs[..i]) + {xs[i]} && xs[i] !in Members(xs[..i])
  {}

  /** `orders` is the result of the filtered query, in any order. */
  method GenerateSales(db: Db, p: Period, orders: seq<Id>) returns (report: seq<Row>)
    requires Distinct(orders) && Members(orders) == Reported(db.orders, p)
    ensures IsReport(db, Reported(db.orders, p), report)
  {
    hide BucketsRight, Reported, SortItems, AsRow, IsReport, ItemsRight, ItemsSorted, Distinct;
    ReportedKnown(db.orders, p);
    assert forall o | o in orders :: o in Members(orders);
    var buckets, keys := FillBuckets(db, orders);
    BucketKeys(db, Members(orders), buckets, keys);
    var items := seq(|keys|, j requires 0 <= j < |keys| => assert keys[j] in keys; Item(keys[j], buckets[keys[j]]));
    var sorted := SortItems(items);
    SortedItems(db, Members(orders), buckets, keys, items);
    report := [];
    var n := 0;
    while n < |sorted|
      invariant 0 <= n <= |sorted| && |report| == n
      invariant forall j | 0 <= j < n :: report[j] == AsRow(sorted[j].key, sorted[j].bucket)
    {
      report := report + [AsRow(sorted[n].key, sorted[n].bucket)];
      n := n + 1;
    }
    RowsFromItems(db, Members(orders), sorted, report);
  }

  lemma ReportedKnown(os: map<Id, Order>, p: Period)
    ensures forall o | o in Reported(os, p) :: o in os
  {}

  lemma NoBuckets(db: Db)
    ensures BucketsRight(db, Members([]), map[], [])
  {}

  lemma BucketKeys(db: Db, sel: set<Id>, buckets: map<Key, Bucket>, keys: seq<Key>)
    requires BucketsRight(db, sel, buckets, keys)
    ensures forall k :: k in keys <==> k in buckets
  {}

  /** The items carry the group-by of the selected orders, each key once. */
  ghost predicate ItemsRight(db: Db, sel: set<Id>, items: seq<Item>) {
    && (forall x | x in items :: x.bucket == BucketFor(db, sel, x.key) && Group(db.orders, sel, x.key) != {})
    && (forall o | o in sel && o in db.orders :: exists x :: x in items && x.key == KeyOf(db.orders[o]))
    && KeysApart(items)
  }

  lemma SortedItems(db: Db, sel: set<Id>, buckets: map<Key, Bucket>, keys: seq<Key>, items: seq<Item>)
    requires BucketsRight(db, sel, buckets, keys) && |items| == |keys|
    requires forall j | 0 <= j < |keys| :: keys[j] in buckets && items[j] == Item(keys[j], buckets[keys[j]])
    ensures ItemsRight(db, sel, SortItems(items)) && ItemsSorted(SortItems(items))
  {
    hide BucketFor, Group, KeyOf, SortItems, ItemsSorted;
    forall o | o in sel && o in db.orders ensures exists x :: x in items && x.key == KeyOf(db.orders[o]) {
      var j :| 0 <= j < |keys| && keys[j] == KeyOf(db.orders[o]);
      assert items[j] in items;
    }
    SortSorts(items);
  }

  lemma RowsFromItems(db: Db, sel: set<Id>, items: seq<Item>, report: seq<Row>)
    requires ItemsRight(db, sel, items) && ItemsSorted(items) && |report| == |items|
    requires forall j | 0 <= j < |items| :: report[j] == AsRow(items[j].key, items[j].bucket)
    ensures IsReport(db, sel, report)
  {
    hide BucketFor, Group, KeyOf, TitleLE;
    forall o | o in sel && o in db.orders ensures HasKey(report, KeyOf(db.orders[o])) {
      var x :| x in items && x.key == KeyOf(db.orders[o]);
      var j :| 0 <= j < |items| && items[j] == x;
      assert RowKey(report[j]) == KeyOf(db.orders[o]);
    }
  }
}

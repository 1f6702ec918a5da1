/** Reconciliation: stored counters against the counts derived from the rows, and the repair. */
module Reconciliation {
  import opened Sums
  import opened Schema
  import opened Invariants

  datatype Finding = Drift | Oversell

  predicate Has(db: Db, t: Id, f: Finding)
    requires t in db.types
  {
    var sold, held := ActualSold(db.tickets, db.orders, t), ActualHeld(db.reservations, t);
    match f
    case Drift => db.types[t].sold != sold || db.types[t].held != held
    case Oversell => sold + held > db.types[t].capacity
  }

  /** The types with a finding, in the order they are visited. */
  function Found(db: Db, rows: seq<Id>, f: Finding): seq<Id>
    requires forall t | t in rows :: t in db.types
  {
    if rows == [] then []
    else
      var n := |rows| - 1;
      Found(db, rows[..n], f) + if Has(db, rows[n], f) then [rows[n]] else []
  }

  /** The counters of these types overwritten with the derived counts. */
  function Corrected(db: Db, rows: seq<Id>): map<Id, TicketType> {
    map t | t in db.types ::
      if t in rows then
        db.types[t].(sold := ActualSold(db.tickets, db.orders, t), held := ActualHeld(db.reservations, t))
      else db.types[t]
  }

  predicate NoneOversold(db: Db, rows: seq<Id>)
    requires forall t | t in rows :: t in db.types
  {
    forall t | t in rows :: !Has(db, t, Oversell)
  }

  /** `--event-id` narrows the run to one event. */
  predicate InScope(t: TicketType, event: Option<Id>) {
    event.Some? ==> t.event == event.value
  }

  /** The query returns every type in scope once, in any order. */
  predicate Scope(db: Db, event: Option<Id>, rows: seq<Id>) {
    Distinct(rows) && Members(rows) == set t | t in db.types && InScope(db.types[t], event)
  }

  lemma {:induction false} FoundMembers(db: Db, rows: seq<Id>, f: Finding)
    requires forall t | t in rows :: t in db.types
    ensures forall t :: t in Found(db, rows, f) <==> t in rows && Has(db, t, f)
  {
    hide Has;
    if rows != [] {
      var n := |rows| - 1;
      FoundMembers(db, rows[..n], f);
      assert rows == rows[..n] + [rows[n]];
    }
  }

  /** The reported types are exactly those whose stored counters differ from the derived counts,
      and those whose derived counts exceed the capacity. */
  lemma FoundExactly(db: Db, rows: seq<Id>, t: Id)
    requires forall k | k in rows :: k in db.types
    ensures t in Found(db, rows, Drift) <==>
              t in rows && (db.types[t].sold != ActualSold(db.tickets, db.orders, t)
                            || db.types[t].held != ActualHeld(db.reservations, t))
    ensures t in Found(db, rows, Oversell) <==>
              t in rows && ActualSold(db.tickets, db.orders, t) + ActualHeld(db.reservations, t) > db.types[t].capacity
  {
    hide ActualSold, ActualHeld;
    FoundMembers(db, rows, Drift);
    FoundMembers(db, rows, Oversell);
  }

  /** Each type is reported once, so the lists are as long as the counts the command prints. */
  lemma {:induction false} FoundOnce(db: Db, rows: seq<Id>, f: Finding)
    requires Distinct(rows) && forall t | t in rows :: t in db.types
    ensures Distinct(Found(db, rows, f))
    ensures |Found(db, rows, f)| == |set t | t in rows && Has(db, t, f)|
  {
    hide Has;
    FoundMembers(db, rows, f);
    if rows != [] {
      var n := |rows| - 1;
      FoundOnce(db, rows[..n], f);
      FoundMembers(db, rows[..n], f);
      assert rows[n] !in rows[..n];
    }
    DistinctSize(Found(db, rows, f));
    assert Members(Found(db, rows, f)) == set t | t in rows && Has(db, t, f);
  }

  /** Writing the derived counts passes the CHECK constraints unless the type is oversold. */
  lemma CorrectionFits(db: Db, t: Id)
    requires TypesFit(db.types) && ReservationsFit(db.reservations) && t in db.types
    ensures TypeFits(db.types[t].(sold := ActualSold(db.tickets, db.orders, t), held := ActualHeld(db.reservations, t)))
            <==> !Has(db, t, Oversell)
    ensures Has(db, t, Oversell) ==> Has(db, t, Drift)
  {
    hide ActualHeld;
    assert TypeFits(db.types[t]);
    HeldNonNegative(db.reservations, t);
  }

  /** A repaired database. */
  function Repaired(db: Db, rows: seq<Id>): Db {
    db.(types := Corrected(db, rows))
  }

  /** After a completed `--fix` the in-scope counters are the derived counts, out-of-scope types
      are untouched, and an immediate second run finds no drift and changes nothing. */
  lemma FixIsComplete(db: Db, event: Option<Id>, rows: seq<Id>, again: seq<Id>)
    requires Scope(db, event, rows) && Scope(Repaired(db, rows), event, again)
    requires forall t | t in rows :: t in db.types
    ensures var d := Repaired(db, rows);
            && (forall t | t in db.types :: t in d.types && d.types[t] ==
                  if event == None || event == Some(db.types[t].event) then
                    db.types[t].(sold := ActualSold(db.tickets, db.orders, t), held := ActualHeld(db.reservations, t))
                  else db.types[t])
            && (forall t | t in again :: t in d.types) && Found(d, again, Drift) == [] && Repaired(d, again) == d
  {
    hide ActualSold, ActualHeld, Distinct;
    var d := Repaired(db, rows);
    forall t ensures t in rows <==> t in db.types && InScope(db.types[t], event) {
      assert t in rows <==> t in Members(rows);
    }
    forall t ensures t in again <==> t in db.types && InScope(db.types[t], event) {
      assert t in again <==> t in Members(again);
    }
    NothingFound(d, again, Drift);
    assert Corrected(d, again) == d.types;
  }

  lemma {:induction false} NothingFound(db: Db, rows: seq<Id>, f: Finding)
    requires forall t | t in rows :: t in db.types && !Has(db, t, f)
    ensures Found(db, rows, f) == []
  {
    hide Has;
    if rows != [] {
      NothingFound(db, rows[..|rows| - 1], f);
    }
  }

  /** An unfiltered fix re-establishes the exactness of all counters. */
  lemma FullFixRestoresCounters(db: Db, rows: seq<Id>)
    requires Scope(db, None, rows)
    ensures CountersExact(Corrected(db, rows), db.tickets, db.orders, db.reservations)
  {
    hide ActualSold, ActualHeld, Distinct;
    forall t | t in db.types ensures t in rows {
      assert t in Members(rows);
    }
  }

  /** In every reachable database reconciliation finds neither drift nor oversell, and a fix
      would change nothing. */
  lemma ReachableIsClean(db: Db, rows: seq<Id>)
    requires Inv(db) && forall t | t in rows :: t in db.types
    ensures Found(db, rows, Drift) == [] && Found(db, rows, Oversell) == []
    ensures Repaired(db, rows) == db
  {
    hide OrdersOk, OrdersMatch, ReservationsOk, KeysUnique, ActualSold, ActualHeld;
    forall t | t in db.types ensures !Has(db, t, Drift) && !Has(db, t, Oversell) {
      assert TypeFits(db.types[t]);
    }
    NothingFound(db, rows, Drift);
    NothingFound(db, rows, Oversell);
    assert Corrected(db, rows) == db.types;
  }

  // ---------- the reconciliation report ----------

  datatype DriftRow = DriftRow(
    ticketType: Id, capacity: int, sold: int, held: int, available: int, actualSold: int, actualHeld: int,
    driftSold: int, driftHeld: int, ok: bool)

  /** One line of generate_reconciliation_csv. */
  predicate DescribesType(db: Db, r: DriftRow) {
    && r.ticketType in db.types
    && var t := db.types[r.ticketType];
       && r.sold + r.driftSold == ActualSold(db.tickets, db.orders, r.ticketType)
       && r.held + r.driftHeld == ActualHeld(db.reservations, r.ticketType)
       && r.actualSold == r.sold + r.driftSold && r.actualHeld == r.held + r.driftHeld
       && (r.capacity, r.sold, r.held) == (t.capacity, t.sold, t.held)
       && r.available + r.sold + r.held == r.capacity
       && (r.ok <==> r.driftSold == 0 && r.driftHeld == 0)
  }

  method ReconciliationReport(db: Db, event: Option<Id>, rows: seq<Id>) returns (report: seq<DriftRow>)
    requires Scope(db, event, rows)
    ensures |report| == |rows|
    ensures forall i | 0 <= i < |rows| :: report[i].ticketType == rows[i] && DescribesType(db, report[i])
  {
    hide ActualSold, ActualHeld, Distinct;
    report := [];
    var i := 0;
    while i < |rows|
      invariant 0 <= i <= |rows| && |report| == i
      invariant forall j | 0 <= j < i :: report[j].ticketType == rows[j] && DescribesType(db, report[j])
    {
      assert rows[i] in Members(rows);
      var id, t := rows[i], db.types[rows[i]];
      var sold, held := ActualSold(db.tickets, db.orders, id), ActualHeld(db.reservations, id);
      var driftSold, driftHeld := sold - t.sold, held - t.held;
      report := report + [DriftRow(id, t.capacity, t.sold, t.held, t.capacity - t.sold - t.held, sold, held,
                                   driftSold, driftHeld, driftSold == 0 && driftHeld == 0)];
      i := i + 1;
    }
  }

  /** In every reachable database each line is OK, both drifts are zero and the available
      capacity is what the tickets and holds leave. */
  lemma ReachableReportIsOk(db: Db, r: DriftRow)
    requires Inv(db) && DescribesType(db, r)
    ensures r.ok && r.driftSold == 0 && r.driftHeld == 0
    ensures r.available == r.capacity - r.actualSold - r.actualHeld && r.available >= 0
  {
    hide OrdersOk, OrdersMatch, ReservationsOk, KeysUnique, ActualSold, ActualHeld;
    assert TypeFits(db.types[r.ticketType]);
  }
}

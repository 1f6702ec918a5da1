/** The expiry sweep in closed form: what it expires, what it releases, and that neither the
    order of the rows nor a second sweep matters. */
module Sweeps {
  import opened Sums
  import opened Schema
  import opened Services
  import opened Invariants
  import opened Preservation
  import opened Runs

  function QuantityFor(rs: map<Id, Reservation>, t: Id): Id -> int {
    r => if r in rs && rs[r].ticketType == t then rs[r].quantity else 0
  }

  /** One log row per expired reservation. */
  function Expiries(rs: map<Id, Reservation>, rows: seq<Id>): seq<AuditRow>
    requires forall r | r in rows :: r in rs
  {
    seq(|rows|, i requires 0 <= i < |rows| =>
      assert rows[i] in rows; AuditRow("system_sweep", HoldExpired(rows[i], rs[rows[i]].quantity)))
  }

  function SweptTypes(types: map<Id, TicketType>, rs: map<Id, Reservation>, expired: set<Id>): map<Id, TicketType> {
    map t | t in types :: Move(types[t], 0, -Total(expired, QuantityFor(rs, t)))
  }

  function SweptReservations(rs: map<Id, Reservation>, expired: set<Id>): map<Id, Reservation> {
    map r | r in rs :: if r in expired then rs[r].(status := ReservationStatus.Expired) else rs[r]
  }

  /** The database after a set of reservations expired, each type losing their total quantity. */
  function Swept(db: Db, rows: seq<Id>): Db
    requires forall r | r in rows :: r in db.reservations
  {
    db.(types := SweptTypes(db.types, db.reservations, Members(rows)),
        reservations := SweptReservations(db.reservations, Members(rows)),
        audit := db.audit + Expiries(db.reservations, rows))
  }

  lemma OneMoreType(types: map<Id, TicketType>, rs: map<Id, Reservation>, expired: set<Id>, r: Id)
    requires r in rs && rs[r].ticketType in types && r !in expired
    ensures var tt := rs[r].ticketType; var before := SweptTypes(types, rs, expired);
            SweptTypes(types, rs, expired + {r}) == before[tt := Move(before[tt], 0, -rs[r].quantity)]
  {
    hide Total;
    forall t | t in types
      ensures Total(expired + {r}, QuantityFor(rs, t))
           == Total(expired, QuantityFor(rs, t)) + if t == rs[r].ticketType then rs[r].quantity else 0
    {
      OneMoreTotal(rs, expired, r, t);
    }
  }

  lemma OneMoreTotal(rs: map<Id, Reservation>, expired: set<Id>, r: Id, t: Id)
    requires r in rs && r !in expired
    ensures Total(expired + {r}, QuantityFor(rs, t))
         == Total(expired, QuantityFor(rs, t)) + if t == rs[r].ticketType then rs[r].quantity else 0
  {
    TotalPoint(expired, QuantityFor(rs, t), QuantityFor(rs, t), r);
  }

  lemma OneMoreReservation(rs: map<Id, Reservation>, expired: set<Id>, r: Id)
    requires r in rs && r !in expired
    ensures SweptReservations(rs, expired + {r})
         == SweptReservations(rs, expired)[r := rs[r].(status := ReservationStatus.Expired)]
    ensures SweptReservations(rs, expired)[r] == rs[r]
  {}

  lemma NothingSwept(db: Db)
    ensures Swept(db, []) == db
  {
    assert Members([]) == {};
    assert SweptTypes(db.types, db.reservations, {}) == db.types;
    assert SweptReservations(db.reservations, {}) == db.reservations;
  }

  lemma OneMoreRow(db: Db, rows: seq<Id>, r: Id, d: Db)
    requires Constraints(db) && (forall k | k in rows :: k in db.reservations) && r in db.reservations && r !in rows
    requires d == Swept(db, rows) && Constraints(d) && r in d.reservations
    ensures Swept(db, rows + [r]) == ExpireOne(d, r)
  {
    hide Constraints, SweptTypes, SweptReservations, Expiries;
    assert Members(rows + [r]) == Members(rows) + {r};
    TypeKnown(db, r);
    OneMoreType(db.types, db.reservations, Members(rows), r);
    OneMoreReservation(db.reservations, Members(rows), r);
    OneMoreExpiry(db.reservations, rows, r);
  }

  lemma OneMoreExpiry(rs: map<Id, Reservation>, rows: seq<Id>, r: Id)
    requires (forall k | k in rows :: k in rs) && r in rs
    ensures Expiries(rs, rows + [r]) == Expiries(rs, rows) + [AuditRow("system_sweep", HoldExpired(r, rs[r].quantity))]
  {}

  /** The loop over the selected rows never trips a constraint and reaches the closed form. */
  lemma {:induction false} LoopReachesClosedForm(db: Db, now: int, rows: seq<Id>)
    requires Inv(db) && Selection(db, now, rows)
    ensures ExpireRows(db, rows) == Some(Swept(db, rows))
  {
    hide Inv, Constraints, Swept, ExpireOne, Releasable;
    InvBasics(db);
    ExpireRowsKeepsInv(db, now, rows);
    if rows == [] {
      NothingSwept(db);
    } else {
      var n := |rows| - 1;
      assert Selection(db, now, rows[..n]) && rows[n] !in rows[..n] && Stale(db, now, rows[n]);
      ExpireRowsKeepsInv(db, now, rows[..n]);
      LoopReachesClosedForm(db, now, rows[..n]);
      OneMoreRow(db, rows[..n], rows[n], Swept(db, rows[..n]));
      assert rows[..n] + [rows[n]] == rows;
    }
  }

  // ---------- skip-locked sweeps ----------

  /** The stale ACTIVE reservations no other transaction has locked. */
  function Unlocked(db: Db, now: int, locked: set<Id>): set<Id> {
    set r | r in db.reservations && Stale(db, now, r) && r !in locked
  }

  /** The skip-locked query returns each of them once, in any order. */
  predicate Selects(db: Db, now: int, locked: set<Id>, rows: seq<Id>) {
    Distinct(rows) && Members(rows) == Unlocked(db, now, locked)
  }

  lemma SelectsIsSelection(db: Db, now: int, locked: set<Id>, rows: seq<Id>)
    requires Selects(db, now, locked, rows)
    ensures Selection(db, now, rows) && |rows| == |Unlocked(db, now, locked)|
    ensures forall r | r in rows :: r in db.reservations
  {
    forall r | r in rows ensures Stale(db, now, r) {
      assert r in Members(rows);
    }
    DistinctSize(rows);
  }

  /** The sweep expires exactly the unlocked stale reservations, lowers `held` of each type by
      exactly their quantity without going negative, and returns their number. */
  lemma SweepIsExact(db: Db, now: int, locked: set<Id>, rows: seq<Id>)
    requires Inv(db) && Constraints(db) && Selects(db, now, locked, rows) && Selection(db, now, rows)
    ensures var out := SweepExpired(db, Sweep(now, rows));
            var gone := Unlocked(db, now, locked);
            && out.reply == SweepReply(|gone|)
            && out.db.types == SweptTypes(db.types, db.reservations, gone)
            && out.db.reservations == SweptReservations(db.reservations, gone)
            && out.db == db.(types := out.db.types, reservations := out.db.reservations, audit := out.db.audit)
            && Inv(out.db)
    ensures forall t | t in db.types :: 0 <= SweepExpired(db, Sweep(now, rows)).db.types[t].held
  {
    hide Inv, Constraints, SweptTypes, SweptReservations, Expiries, Unlocked;
    SelectsIsSelection(db, now, locked, rows);
    LoopReachesClosedForm(db, now, rows);
    ExpireRowsKeepsInv(db, now, rows);
    SweptTypesKept(db, rows);
    HeldInRange(Swept(db, rows));
  }

  /** ACTIVE, past its deadline, and not locked. */
  function Gone(db: Db, now: int, locked: set<Id>): set<Id> {
    set r | r in db.reservations && db.reservations[r].status.Active? && db.reservations[r].expiresAt < now
            && r !in locked
  }

  /** The same with nothing abbreviated: what one sweep does to every reservation and every type. */
  lemma SweepMeans(db: Db, now: int, locked: set<Id>, rows: seq<Id>)
    requires (forall i, j | 0 <= i < j < |rows| :: rows[i] != rows[j]) && Members(rows) == Gone(db, now, locked)
    requires Constraints(db) && Selection(db, now, rows) && Inv(db)
    ensures var d := SweepExpired(db, Sweep(now, rows)).db;
            var gone := Gone(db, now, locked);
            && SweepExpired(db, Sweep(now, rows)).reply == SweepReply(|gone|)
            && d.reservations.Keys == db.reservations.Keys && d.types.Keys == db.types.Keys
            && (forall r | r in db.reservations :: d.reservations[r].status ==
                  if r in gone then ReservationStatus.Expired else db.reservations[r].status)
            && (forall t | t in db.types :: d.types[t].sold == db.types[t].sold
                  && db.types[t].held - d.types[t].held == Total(gone, QuantityFor(db.reservations, t)))
  {
    hide Inv, Constraints, Total, SweepExpired;
    assert Unlocked(db, now, locked) == Gone(db, now, locked);
    SweepIsExact(db, now, locked, rows);
    hide Selects, Selection, Unlocked;
  }

  lemma SweptTypesKept(db: Db, rows: seq<Id>)
    requires forall r | r in rows :: r in db.reservations
    ensures Swept(db, rows).types.Keys == db.types.Keys
  {}

  lemma HeldInRange(db: Db)
    requires Inv(db)
    ensures forall t | t in db.types :: 0 <= db.types[t].held
  {
    hide CountersExact, OrdersOk, OrdersMatch, ReservationsOk;
    assert forall t | t in db.types :: TypeFits(db.types[t]);
  }

  /** The processing order shows only in the order of the log rows. */
  lemma SweepOrderIrrelevant(db: Db, now: int, locked: set<Id>, rows: seq<Id>, other: seq<Id>)
    requires Inv(db) && Constraints(db) && Selects(db, now, locked, rows) && Selects(db, now, locked, other)
    requires Selection(db, now, rows) && Selection(db, now, other)
    ensures var a, b := SweepExpired(db, Sweep(now, rows)), SweepExpired(db, Sweep(now, other));
            && a.reply == b.reply && a.db == b.db.(audit := a.db.audit)
            && multiset(a.db.audit) == multiset(b.db.audit)
  {
    hide Inv, Constraints, SweptTypes, SweptReservations, Expiries, Unlocked;
    SweepIsExact(db, now, locked, rows);
    SweepIsExact(db, now, locked, other);
    SelectsIsSelection(db, now, locked, rows);
    SelectsIsSelection(db, now, locked, other);
    LoopReachesClosedForm(db, now, rows);
    LoopReachesClosedForm(db, now, other);
    ExpiriesPermute(db.reservations, rows, other);
  }

  lemma {:induction false} ExpiriesPermute(rs: map<Id, Reservation>, rows: seq<Id>, other: seq<Id>)
    requires (forall r | r in rows :: r in rs) && (forall r | r in other :: r in rs)
    requires Distinct(rows) && Distinct(other) && Members(rows) == Members(other)
    ensures multiset(Expiries(rs, rows)) == multiset(Expiries(rs, other))
  {
    if rows == [] {
      assert Members(rows) == {};
      DistinctSize(other);
    } else {
      var n := |rows| - 1;
      var r := rows[n];
      assert r in Members(other);
      var i :| 0 <= i < |other| && other[i] == r;
      SameWithout(rows, other, i);
      ExpiriesPermute(rs, rows[..n], other[..i] + other[i + 1..]);
      TakeOut(rs, rows, n);
      TakeOut(rs, other, i);
      assert rows[..n] + rows[n + 1..] == rows[..n];
    }
  }

  /** One row's log entry may be written at any point. */
  lemma TakeOut(rs: map<Id, Reservation>, rows: seq<Id>, i: nat)
    requires (forall r | r in rows :: r in rs) && i < |rows|
    ensures multiset(Expiries(rs, rows)) == multiset(Expiries(rs, rows[..i] + rows[i + 1..]))
                                          + multiset{AuditRow("system_sweep",
                                                              HoldExpired(rows[i], rs[rows[i]].quantity))}
  {
    var all, front, back := Expiries(rs, rows), Expiries(rs, rows[..i]), Expiries(rs, rows[i + 1..]);
    assert Expiries(rs, rows[..i] + rows[i + 1..]) == front + back;
    assert all == front + [all[i]] + back;
  }

  /** Dropping the last of one list and its copy in the other keeps the members equal. */
  lemma SameWithout(rows: seq<Id>, other: seq<Id>, i: nat)
    requires rows != [] && i < |other| && other[i] == rows[|rows| - 1]
    requires Distinct(rows) && Distinct(other) && Members(rows) == Members(other)
    ensures var rest := other[..i] + other[i + 1..];
            Distinct(rest) && Members(rest) == Members(rows[..|rows| - 1])
  {
    var n := |rows| - 1;
    var rest := other[..i] + other[i + 1..];
    MembersWithout(rows, n);
    MembersWithout(other, i);
    assert rows[..n] + rows[n + 1..] == rows[..n];
  }

  lemma MembersWithout(xs: seq<Id>, i: nat)
    requires Distinct(xs) && i < |xs|
    ensures Members(xs[..i] + xs[i + 1..]) == Members(xs) - {xs[i]}
    ensures Distinct(xs[..i] + xs[i + 1..])
  {
    var rest := xs[..i] + xs[i + 1..];
    forall k | k in Members(xs) - {xs[i]} ensures k in rest {
      var j :| 0 <= j < |xs| && xs[j] == k;
      assert if j < i then rest[j] == k else rest[j - 1] == k;
    }
    forall k | k in rest ensures k in Members(xs) && k != xs[i] {
      var j :| 0 <= j < |rest| && rest[j] == k;
      assert if j < i then xs[j] == k else xs[j + 1] == k;
    }
  }

  /** A second sweep at the same instant, with the same rows locked, finds and changes nothing. */
  lemma SecondSweepDoesNothing(db: Db, now: int, locked: set<Id>, rows: seq<Id>, again: seq<Id>)
    requires Inv(db) && Constraints(db) && Selects(db, now, locked, rows) && Selection(db, now, rows)
    requires Selects(SweepExpired(db, Sweep(now, rows)).db, now, locked, again)
    ensures var d := SweepExpired(db, Sweep(now, rows)).db;
            Constraints(d) && Selection(d, now, again)
            && SweepExpired(d, Sweep(now, again)) == Outcome(d, SweepReply(0))
  {
    hide Inv, Constraints, SweptTypes, Expiries;
    SweepIsExact(db, now, locked, rows);
    var d := SweepExpired(db, Sweep(now, rows)).db;
    InvBasics(d);
    assert Unlocked(d, now, locked) == {};
    DistinctSize(again);
  }
}

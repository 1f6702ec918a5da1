/** Many buyers, one ticket type: exactly as many one-ticket reservations succeed as there are
    tickets, however their transactions interleave with each other and with anything that does
    not touch the type, and whichever of them crash. */
module Contention {
  import opened Schema
  import opened Services
  import opened Invariants
  import opened Runs
  import opened Sums
  import opened Sweeps
  import opened Machine
  import opened Footprints
  import opened Interleaving
  import opened Refinement
  import opened Serializability

  predicate OneTicket(q: Request, tt: Id) {
    q.Create? && q.ticketType == tt && q.quantity == 1
  }

  /** A request that leaves ticket type tt and its event alone. `d` says which type the
      reservations and orders belong to; that never changes. */
  predicate Elsewhere(d: Db, q: Request, tt: Id) {
    match q
    case Create(_, t, _, _, _) => t != tt
    case Cancel(r, _) => r in d.reservations ==> d.reservations[r].ticketType != tt
    case Purchase(r, _, _, _, _, _, _, _, _) => r in d.reservations ==> d.reservations[r].ticketType != tt
    case IssueRefund(o, _, _, _, _, _) => o in d.orders ==> d.orders[o].ticketType != tt
    case Sweep(_, rows) => forall r | r in rows && r in d.reservations :: d.reservations[r].ticketType != tt
    case SetPaused(e, _) => tt in d.types ==> d.types[tt].event != e
  }

  predicate BuyerOrElsewhere(d: Db, q: Request, tt: Id) {
    OneTicket(q, tt) || Elsewhere(d, q, tt)
  }

  /** Every step belongs to a one-ticket request for tt or leaves tt alone. */
  predicate OnlyBuyersTouch(d: Db, steps: seq<Action>, tt: Id) {
    forall a | a in steps ::
      && (a.Begin? ==> BuyerOrElsewhere(d, a.request, tt))
      && (a.Start? ==> Elsewhere(d, Sweep(0, a.rows), tt))
      && (a.Toggle? ==> Elsewhere(d, SetPaused(a.event, a.paused), tt))
  }

  /** Refusals for lack of a row id aside, the service answered a buyer. */
  predicate Answered(e: Entry, tt: Id) {
    OneTicket(e.request, tt) && e.reply != Raised(DatabaseError)
  }

  function AnswerCount(log: seq<Entry>, tt: Id): nat {
    if log == [] then 0 else AnswerCount(log[..|log| - 1], tt) + if Answered(log[|log| - 1], tt) then 1 else 0
  }

  function Successes(log: seq<Entry>, tt: Id): nat {
    if log == [] then 0
    else Successes(log[..|log| - 1], tt)
         + if OneTicket(log[|log| - 1].request, tt) && log[|log| - 1].reply.ReservationReply? then 1 else 0
  }

  function Min(a: int, b: int): int {
    if a < b then a else b
  }

  // ---------- the serial run ----------

  predicate OpenForSale(db: Db, tt: Id) {
    && tt in db.types && db.types[tt].status.Active?
    && db.types[tt].event in db.events && !db.events[db.types[tt].event].salesPaused
  }

  /** The row of tt and the row of its event are the same. */
  predicate SameOffer(db: Db, d: Db, tt: Id) {
    && tt in db.types && tt in d.types && d.types[tt] == db.types[tt]
    && db.types[tt].event in db.events && db.types[tt].event in d.events
    && d.events[db.types[tt].event] == db.events[db.types[tt].event]
  }

  lemma ElsewhereEarlier(db: Db, d: Db, q: Request, tt: Id)
    requires Evolves(db, d) && Elsewhere(d, q, tt) && tt in db.types
    ensures Elsewhere(db, q, tt)
  {
    hide TicketsEvolve;
  }

  lemma SweepElsewhere(db: Db, now: int, rows: seq<Id>, tt: Id)
    requires Inv(db) && Constraints(db) && Selection(db, now, rows) && Elsewhere(db, Sweep(now, rows), tt)
    requires OpenForSale(db, tt)
    ensures SameOffer(db, SweepExpired(db, Sweep(now, rows)).db, tt)
  {
    hide Inv, Constraints, Total, Expiries, SweptReservations;
    LoopReachesClosedForm(db, now, rows);
    TotalZero(Members(rows), QuantityFor(db.reservations, tt));
  }

  lemma PurchaseElsewhere(db: Db, p: Request, tt: Id)
    requires Constraints(db) && p.Purchase? && Elsewhere(db, p, tt) && OpenForSale(db, tt)
    ensures SameOffer(db, ProcessPurchase(db, p).db, tt)
  {
    hide Constraints, TypeFits, OrderFits, WithTickets, Mintable;
  }

  lemma RefundElsewhere(db: Db, f: Request, tt: Id)
    requires Constraints(db) && f.IssueRefund? && Elsewhere(db, f, tt) && OpenForSale(db, tt)
    ensures SameOffer(db, RefundOrder(db, f).db, tt)
  {
    hide Constraints, TypeFits, UnitCharge, RefundTargets, MarkRefunded, OnlyMember;
  }

  lemma ElsewhereLeaves(db: Db, q: Request, tt: Id)
    requires Inv(db) && Constraints(db) && Admissible(db, q) && Elsewhere(db, q, tt) && OpenForSale(db, tt)
    ensures SameOffer(db, Apply(db, q).db, tt)
  {
    hide Inv, Constraints, ProcessPurchase, RefundOrder, TypeFits;
    match q
    case Create(_, _, _, _, _) =>
    case Cancel(_, _) =>
    case Purchase(_, _, _, _, _, _, _, _, _) => PurchaseElsewhere(db, q, tt);
    case IssueRefund(_, _, _, _, _, _) => RefundElsewhere(db, q, tt);
    case Sweep(now, rows) => SweepElsewhere(db, now, rows, tt);
    case SetPaused(_, _) =>
  }

  /** One more buyer gets a ticket exactly when one is left. */
  lemma BuyerStep(db: Db, q: Request, tt: Id)
    requires Constraints(db) && OneTicket(q, tt) && OpenForSale(db, tt)
    ensures var out := CreateReservation(db, q);
            var won := out.reply.ReservationReply?;
            && out.db.events == db.events && tt in out.db.types
            && out.db.types[tt] == db.types[tt].(held := db.types[tt].held + if won then 1 else 0)
            && (out.reply != Raised(DatabaseError) ==> (won <==> Available(db.types[tt]) >= 1))
            && (out.reply == Raised(DatabaseError) ==> !won)
  {
    hide Constraints;
  }

  /** What the buyers' successes say about the offer. */
  ghost predicate Served(init: Db, d: Db, log: seq<Entry>, tt: Id) {
    && OpenForSale(init, tt) && OpenForSale(d, tt)
    && d.types[tt] == init.types[tt].(held := init.types[tt].held + Successes(log, tt))
    && Successes(log, tt) == Min(AnswerCount(log, tt), Available(init.types[tt]))
  }

  lemma {:induction false} SerialBuyers(init: Db, log: seq<Entry>, tt: Id, last: Db)
    requires Inv(init) && OpenForSale(init, tt) && Replay(init, log).Some?
    requires forall e | e in log :: BuyerOrElsewhere(last, e.request, tt)
    requires Evolves(Replay(init, log).value, last)
    ensures Served(init, Replay(init, log).value, log, tt)
  {
    hide Inv, Constraints, Evolves, Elsewhere, Apply, Admissible;
    if log == [] {
      TypeRowFits(init, tt);
    } else {
      var n := |log| - 1;
      var d, e := Replay(init, log[..n]).value, log[n];
      assert e in log && forall x | x in log[..n] :: x in log;
      InvBasics(d);
      ApplyEvolves(d, e.request);
      EvolvesTransitive(d, Replay(init, log).value, last);
      SerialBuyers(init, log[..n], tt, last);
      ServedStep(init, d, log[..n], e, tt, last);
      assert log == log[..n] + [e];
    }
  }

  lemma ServedStep(init: Db, d: Db, log: seq<Entry>, e: Entry, tt: Id, last: Db)
    requires Inv(d) && Constraints(d) && Admissible(d, e.request) && Apply(d, e.request).reply == e.reply
    requires Evolves(d, last) && BuyerOrElsewhere(last, e.request, tt) && Served(init, d, log, tt)
    ensures Served(init, Apply(d, e.request).db, log + [e], tt)
  {
    hide Inv, Constraints, Evolves, Elsewhere, CreateReservation, Admissible;
    assert (log + [e])[..|log|] == log;
    if OneTicket(e.request, tt) {
      BuyerStep(d, e.request, tt);
    } else {
      ElsewhereEarlier(d, last, e.request, tt);
      ElsewhereLeaves(d, e.request, tt);
      hide Apply;
    }
  }

  // ---------- the interleaved run ----------

  /** The open transactions of buyers. */
  function OpenBuyers(m: State, tt: Id): set<nat> {
    set u | u in m.txns && OneTicket(m.txns[u].request, tt)
  }

  /** How one step changes the number of contenders. */
  function Joins(m: State, a: Action, tt: Id): int {
    match a
    case Begin(_, q) => if OneTicket(q, tt) then 1 else 0
    case Crash(tid) => if tid in OpenBuyers(m, tt) then -1 else 0
    case Clash(tid) => if tid in OpenBuyers(m, tt) then -1 else 0
    case _ => 0
  }

  /** The buyers that begin, less those that crash or draw a taken row id. */
  ghost function Contenders(init: Db, steps: seq<Action>, tt: Id): int
    requires Interleave(init, steps).Some?
  {
    if steps == [] then 0
    else
      var n := |steps| - 1;
      Contenders(init, steps[..n], tt) + Joins(Interleave(init, steps[..n]).value, steps[n], tt)
  }

  /** Each contender is open or answered; everybody else is elsewhere. */
  predicate Conserved(m: State, tt: Id, contenders: int, last: Db) {
    && (forall u | u in m.txns :: BuyerOrElsewhere(last, m.txns[u].request, tt))
    && (forall e | e in m.history :: BuyerOrElsewhere(last, e.request, tt))
    && AnswerCount(m.history, tt) + |OpenBuyers(m, tt)| == contenders
  }

  lemma OpenKnown(m: State, tt: Id, contenders: int, last: Db, tid: nat)
    requires Conserved(m, tt, contenders, last) && tid in m.txns
    ensures BuyerOrElsewhere(last, m.txns[tid].request, tt)
  {}

  lemma PutConserves(m: State, tid: nat, x: Txn, tt: Id, contenders: int, last: Db)
    requires Conserved(m, tt, contenders, last) && BuyerOrElsewhere(last, x.request, tt)
    requires tid in m.txns ==> (OneTicket(m.txns[tid].request, tt) <==> OneTicket(x.request, tt))
    ensures Conserved(Put(m, tid, x), tt,
                      contenders + if tid !in m.txns && OneTicket(x.request, tt) then 1 else 0, last)
  {
    hide Elsewhere, OneTicket, AnswerCount;
    BuyerJoins(m, tid, x, tt);
    hide OpenBuyers;
  }

  lemma BuyerJoins(m: State, tid: nat, x: Txn, tt: Id)
    requires tid in m.txns ==> (OneTicket(m.txns[tid].request, tt) <==> OneTicket(x.request, tt))
    ensures |OpenBuyers(Put(m, tid, x), tt)|
         == |OpenBuyers(m, tt)| + if tid !in m.txns && OneTicket(x.request, tt) then 1 else 0
  {
    hide OneTicket;
    assert OpenBuyers(Put(m, tid, x), tt) == OpenBuyers(m, tt) + if OneTicket(x.request, tt) then {tid} else {};
  }

  lemma BuyerLeaves(m: State, tid: nat, tt: Id)
    ensures var rest := OpenBuyers(m.(txns := m.txns - {tid}), tt);
            && rest == OpenBuyers(m, tt) - {tid}
            && |rest| == |OpenBuyers(m, tt)| - if tid in OpenBuyers(m, tt) then 1 else 0
  {
    hide OneTicket;
    assert OpenBuyers(m.(txns := m.txns - {tid}), tt) == OpenBuyers(m, tt) - {tid};
  }

  lemma LeaveConserves(m: State, tid: nat, tt: Id, contenders: int, last: Db)
    requires Conserved(m, tt, contenders, last)
    ensures Conserved(m.(txns := m.txns - {tid}), tt, contenders - if tid in OpenBuyers(m, tt) then 1 else 0, last)
  {
    hide BuyerOrElsewhere, OneTicket, AnswerCount;
    BuyerLeaves(m, tid, tt);
  }

  lemma EntryConserves(m: State, d: Db, e: Entry, tt: Id, contenders: int, last: Db)
    requires Conserved(m, tt, contenders, last) && BuyerOrElsewhere(last, e.request, tt)
    ensures Conserved(State(d, m.txns, m.history + [e]), tt, contenders + if Answered(e, tt) then 1 else 0, last)
  {
    hide Elsewhere;
    assert (m.history + [e])[..|m.history|] == m.history;
    assert OpenBuyers(State(d, m.txns, m.history + [e]), tt) == OpenBuyers(m, tt);
  }

  lemma EndConserves(m: State, d: Db, tid: nat, reply: Reply, tt: Id, contenders: int, last: Db)
    requires Conserved(m, tt, contenders, last) && tid in m.txns
    ensures Conserved(State(d, m.txns - {tid}, m.history + [Entry(m.txns[tid].request, reply)]), tt,
                      contenders - (if OneTicket(m.txns[tid].request, tt) && reply == Raised(DatabaseError) then 1
                                    else 0),
                      last)
  {
    hide Conserved, Elsewhere, BuyerOrElsewhere;
    OpenKnown(m, tt, contenders, last, tid);
    LeaveConserves(m, tid, tt, contenders, last);
    EntryConserves(m.(txns := m.txns - {tid}), d, Entry(m.txns[tid].request, reply), tt,
                   contenders - if tid in OpenBuyers(m, tt) then 1 else 0, last);
  }

  lemma SettleConserves(m: State, tid: nat, d: Decision, x: Txn, tt: Id, contenders: int, last: Db)
    requires Conserved(m, tt, contenders, last) && tid in m.txns && x.request == m.txns[tid].request
    requires d.Refuse? && OneTicket(x.request, tt) ==> d.error != DatabaseError
    ensures Conserved(Settle(m, tid, d, x), tt, contenders, last)
  {
    hide Conserved, BuyerOrElsewhere;
    OpenKnown(m, tt, contenders, last, tid);
    match d
    case Refuse(e) => EndConserves(m, m.db, tid, Raised(e), tt, contenders, last);
    case Go(plan, reply) => PutConserves(m, tid, x.(phase := Writing(plan, 0, reply)), tt, contenders, last);
  }

  lemma StartConserves(m: State, tid: nat, rows: seq<Id>, tt: Id, contenders: int, last: Db)
    requires Constraints(m.db) && Conserved(m, tt, contenders, last) && tid in m.txns && CanStart(m, tid, rows)
    requires Elsewhere(last, Sweep(0, rows), tt)
    ensures Conserved(AfterStart(m, tid, rows), tt, contenders, last)
  {
    hide Constraints, Conserved, Settle, Finish, Put, DecideCancel, SweepPlan, Free, Stale;
    OpenKnown(m, tt, contenders, last, tid);
    var x, db := m.txns[tid], m.db;
    match x.request
    case Create(_, t, _, _, _) =>
      if t !in db.types || !db.types[t].status.Active? {
        FinishConserves(m, tid, Raised(NotFound), tt, contenders, last);
      } else {
        EventKnown(db, t);
        var e := db.types[t].event;
        SettleConserves(m, tid, DecideCreate(x.request, db.types[t], db.events[e]),
                        x.(locks := {TypeRow(t)}, events := {e}), tt, contenders, last);
      }
    case Cancel(r, _) =>
      if r !in db.reservations {
        FinishConserves(m, tid, Raised(NotFound), tt, contenders, last);
      } else {
        SettleConserves(m, tid, DecideCancel(x.request, db.reservations[r]), x.(locks := {ReservationRow(r)}), tt,
                        contenders, last);
      }
    case Purchase(r, _, _, _, _, _, _, _, _) =>
      if r !in db.reservations {
        FinishConserves(m, tid, Raised(NotFound), tt, contenders, last);
      } else {
        TypeKnown(db, r);
        var row := db.reservations[r];
        var t := db.types[row.ticketType];
        PutConserves(m, tid, x.(phase := FetchedReservation(row, t, db.events[t.event].salesPaused),
                                locks := {ReservationRow(r)}, events := {t.event}), tt, contenders, last);
      }
    case IssueRefund(o, _, _, _, _, _) =>
      if !MayRefund(db, x.request) {
        FinishConserves(m, tid, Raised(NotFound), tt, contenders, last);
      } else if db.orders[o].status.Refunded? || db.orders[o].status.Failed? {
        FinishConserves(m, tid, Raised(InvalidRefund), tt, contenders, last);
      } else {
        PutConserves(m, tid, x.(phase := FetchedOrder(db.orders[o]), locks := {OrderRow(o)}), tt, contenders, last);
      }
    case Sweep(now, _) =>
      StaleRowsExist(db, now, rows);
      PutConserves(m, tid, x.(request := Sweep(now, rows),
                              phase := Writing(SweepPlan(db.reservations, rows), 0, SweepReply(|rows|)),
                              locks := set r | r in rows :: ReservationRow(r)), tt, contenders, last);
    case SetPaused(_, _) =>
  }

  lemma FinishConserves(m: State, tid: nat, reply: Reply, tt: Id, contenders: int, last: Db)
    requires Conserved(m, tt, contenders, last) && tid in m.txns && reply != Raised(DatabaseError)
    ensures Conserved(Finish(m, tid, reply), tt, contenders, last)
  {
    hide Conserved;
    EndConserves(m, m.db, tid, reply, tt, contenders, last);
  }

  lemma LookConserves(m: State, tid: nat, tt: Id, contenders: int, last: Db)
    requires Conserved(m, tt, contenders, last) && tid in m.txns
    ensures Conserved(AfterLook(m, tid), tt, contenders, last)
  {
    hide Conserved, Settle, Put, DecidePurchase, DecideRefund, RefundTargets, CollisionPlan, BuyerOrElsewhere;
    OpenKnown(m, tt, contenders, last, tid);
    var x := m.txns[tid];
    match x.phase
    case FetchedReservation(row, t, paused) =>
      if x.request.Purchase? {
        if x.request.key in m.db.keyIndex {
          var winner := m.db.keyIndex[x.request.key];
          PutConserves(m, tid, x.(phase := Writing(CollisionPlan(x.request, winner), 0, OrderReply(winner))), tt,
                       contenders, last);
        } else {
          SettleConserves(m, tid, DecidePurchase(x.request, row, t, paused), x, tt, contenders, last);
        }
      }
    case FetchedOrder(o) =>
      if x.request.IssueRefund? && o.quantity >= 1 {
        SettleConserves(m, tid, DecideRefund(x.request, o, RefundTargets(m.db, x.request)), x, tt, contenders, last);
      }
    case _ =>
  }

  /** A buyer that has decided to write has decided to hold a ticket. */
  lemma BuyerWillHold(db: Db, x: Txn, tt: Id)
    requires TxnOk(db, x) && x.phase.Writing? && OneTicket(x.request, tt)
    ensures x.phase.reply.ReservationReply?
    ensures x.phase.pc < |x.phase.plan| && Clashes(db, x.phase.plan[x.phase.pc]) ==>
              ClashError(x.phase.plan[x.phase.pc]) == DatabaseError
  {
    hide WritesAfter, Claimed;
  }

  lemma StepConserves(init: Db, m: State, a: Action, tt: Id, contenders: int, last: Db)
    requires MachineOk(init, m) && Constraints(m.db) && Enabled(m, a) && Conserved(m, tt, contenders, last)
    requires OnlyBuyersTouch(last, [a], tt)
    ensures Conserved(Do(m, a), tt, contenders + Joins(m, a, tt), last)
  {
    hide MachineOk, Constraints, TxnOk, Conserved, BuyerOrElsewhere, AfterStart, AfterLook, CanStart, Finish, Free,
         Vacant, Passes, Clashes, ClashError, Exec, Needs, Merge, CollisionPlan;
    assert [a][0] == a;
    match a
    case Begin(tid, q) => PutConserves(m, tid, Txn(q, Waiting, NO_WRITES, {}, {}), tt, contenders, last);
    case Start(tid, rows) => StartConserves(m, tid, rows, tt, contenders, last);
    case Look(tid) => LookConserves(m, tid, tt, contenders, last);
    case Execute(tid) =>
      OpenKnown(m, tt, contenders, last, tid);
      PutConserves(m, tid, Do(m, a).txns[tid], tt, contenders, last);
    case Collide(tid) =>
      OpenKnown(m, tt, contenders, last, tid);
      PutConserves(m, tid, Do(m, a).txns[tid], tt, contenders, last);
    case Clash(tid) =>
      OpenIsOk(init, m, tid);
      ClashConserves(m, tid, tt, contenders, last);
    case Commit(tid) =>
      OpenIsOk(init, m, tid);
      if OneTicket(m.txns[tid].request, tt) {
        BuyerWillHold(m.db, m.txns[tid], tt);
      }
      EndConserves(m, Do(m, a).db, tid, m.txns[tid].phase.reply, tt, contenders, last);
    case Crash(tid) => LeaveConserves(m, tid, tt, contenders, last);
    case Toggle(e, paused) =>
      assert BuyerOrElsewhere(last, SetPaused(e, paused), tt) by { NotABuyer(last, SetPaused(e, paused), tt); }
      EntryConserves(m, Do(m, a).db, Entry(SetPaused(e, paused), Done), tt, contenders, last);
  }

  lemma NotABuyer(d: Db, q: Request, tt: Id)
    requires Elsewhere(d, q, tt)
    ensures BuyerOrElsewhere(d, q, tt)
  {}

  lemma ClashConserves(m: State, tid: nat, tt: Id, contenders: int, last: Db)
    requires Conserved(m, tt, contenders, last) && Enabled(m, Clash(tid)) && TxnOk(m.db, m.txns[tid])
    requires Constraints(m.db)
    ensures Conserved(Do(m, Clash(tid)), tt, contenders + Joins(m, Clash(tid), tt), last)
  {
    hide Conserved, Constraints, Clashes, ClashError, Free;
    var x := m.txns[tid];
    var e := ClashError(x.phase.plan[x.phase.pc]);
    if OneTicket(x.request, tt) {
      BuyerWillHold(m.db, x, tt);
    }
    EndConserves(m, m.db, tid, Raised(e), tt, contenders, last);
  }

  lemma {:induction false} BuyersConserved(init: Db, steps: seq<Action>, tt: Id, last: Db)
    requires Inv(init) && OnlyBuyersTouch(last, steps, tt) && Interleave(init, steps).Some?
    ensures Conserved(Interleave(init, steps).value, tt, Contenders(init, steps, tt), last)
  {
    hide Inv, MachineOk, Constraints, Enabled, Do, Conserved, BuyerOrElsewhere, Elsewhere, Joins;
    if steps == [] {
      NobodyYet(init, tt, last);
    } else {
      var n := |steps| - 1;
      assert forall a | a in steps[..n] :: a in steps;
      assert steps[n] in steps;
      InterleavingKeeps(init, steps[..n]);
      BuyersConserved(init, steps[..n], tt, last);
      StepConserves(init, Interleave(init, steps[..n]).value, steps[n], tt, Contenders(init, steps[..n], tt), last);
    }
  }

  lemma NobodyYet(init: Db, tt: Id, last: Db)
    ensures Conserved(State(init, map[], []), tt, 0, last)
  {
    assert OpenBuyers(State(init, map[], []), tt) == {};
  }

  /** No oversell and no undersell: once no buyer is waiting any more, min(N, available) of the
      N contenders hold a ticket, whatever else the system did elsewhere. */
  lemma ExactlyTheAvailable(init: Db, steps: seq<Action>, tt: Id)
    requires Inv(init) && OpenForSale(init, tt) && Interleave(init, steps).Some?
    requires OnlyBuyersTouch(Interleave(init, steps).value.db, steps, tt)
    requires OpenBuyers(Interleave(init, steps).value, tt) == {}
    ensures var m, n := Interleave(init, steps).value, Contenders(init, steps, tt);
            var won := Min(n, Available(init.types[tt]));
            && AnswerCount(m.history, tt) == n && Successes(m.history, tt) == won
            && tt in m.db.types && m.db.types[tt] == init.types[tt].(held := init.types[tt].held + won)
  {
    hide Inv, Constraints, Evolves, Elsewhere, Contenders, OnlyBuyersTouch, BuyerOrElsewhere, OpenBuyers;
    var m := Interleave(init, steps).value;
    BuyersConserved(init, steps, tt, m.db);
    Serializable(init, steps);
    EvolvesReflexive(m.db);
    SerialBuyers(init, m.history, tt, m.db);
  }
}

/** The steps of the machine, and the invariant that ties every open transaction to what its
    service would do alone on the committed database. */
module Interleaving {
  import opened Sums
  import opened Schema
  import opened Services
  import opened Invariants
  import opened Runs
  import opened Machine
  import opened Footprints

  // ---------- steps ----------

  /** No other transaction holds one of the locks. */
  predicate Free(m: State, tid: nat, locks: set<Lock>) {
    forall u | u in m.txns && u != tid :: m.txns[u].locks !! locks
  }

  /** A request as a caller can make it: the rows of a sweep come from its query. */
  predicate Launchable(q: Request) {
    match q
    case Create(_, _, n, _, _) => n >= 1
    case Purchase(_, _, _, _, late, _, _, _, _) => !late
    case Sweep(_, rows) => rows == []
    case SetPaused(_, _) => false
    case _ => true
  }

  /** FOR UPDATE waits for the row it names. SKIP LOCKED takes stale rows that nobody holds, each
      once; which of them it passes over, because a row joined to it was locked or its scan came
      too early, is left open. */
  predicate CanStart(m: State, tid: nat, rows: seq<Id>)
    requires tid in m.txns
  {
    match m.txns[tid].request
    case Create(_, t, _, _, _) => t in m.db.types && m.db.types[t].status.Active? ==> Free(m, tid, {TypeRow(t)})
    case Cancel(r, _) => r in m.db.reservations ==> Free(m, tid, {ReservationRow(r)})
    case Purchase(r, _, _, _, _, _, _, _, ids) =>
      r in m.db.reservations ==> Free(m, tid, {ReservationRow(r)}) && |ids| == m.db.reservations[r].quantity
    case IssueRefund(o, _, _, _, _, _) => MayRefund(m.db, m.txns[tid].request) ==> Free(m, tid, {OrderRow(o)})
    case Sweep(now, _) =>
      Distinct(rows) && forall r | r in rows :: Stale(m.db, now, r) && Free(m, tid, {ReservationRow(r)})
    case SetPaused(_, _) => false
  }

  predicate Enabled(m: State, a: Action) {
    match a
    case Begin(tid, q) => tid !in m.txns && Launchable(q)
    case Start(tid, rows) => tid in m.txns && m.txns[tid].phase.Waiting? && CanStart(m, tid, rows)
    case Look(tid) =>
      tid in m.txns && (m.txns[tid].phase.FetchedReservation? || m.txns[tid].phase.FetchedOrder?)
    case Execute(tid) =>
      && tid in m.txns && m.txns[tid].phase.Writing? && m.txns[tid].phase.pc < |m.txns[tid].phase.plan|
      && var s := m.txns[tid].phase.plan[m.txns[tid].phase.pc];
      Free(m, tid, Needs(s)) && Vacant(m.db, s) && Passes(m.db, m.txns[tid].writes, s)
    case Collide(tid) =>
      && tid in m.txns && m.txns[tid].phase.Writing? && m.txns[tid].phase.pc < |m.txns[tid].phase.plan|
      && var s := m.txns[tid].phase.plan[m.txns[tid].phase.pc];
      s.InsertOrder? && m.txns[tid].request.Purchase? && s.orderRow.key == m.txns[tid].request.key
      && s.orderRow.key in m.db.keyIndex && Free(m, tid, {KeySlot(s.orderRow.key)})
    case Clash(tid) =>
      && tid in m.txns && m.txns[tid].phase.Writing? && m.txns[tid].phase.pc < |m.txns[tid].phase.plan|
      && var s := m.txns[tid].phase.plan[m.txns[tid].phase.pc];
      Free(m, tid, Needs(s)) && Clashes(m.db, s)
    case Commit(tid) =>
      tid in m.txns && m.txns[tid].phase.Writing? && m.txns[tid].phase.pc == |m.txns[tid].phase.plan|
    case Crash(tid) => tid in m.txns
    case Toggle(e, _) => e in m.db.events && forall u | u in m.txns :: e !in m.txns[u].events
  }

  function Put(m: State, tid: nat, x: Txn): State {
    m.(txns := m.txns[tid := x])
  }

  /** The transaction ends without a trace in the database; `reply` is what its caller is told. */
  function Finish(m: State, tid: nat, reply: Reply): State
    requires tid in m.txns
  {
    m.(txns := m.txns - {tid}, history := m.history + [Entry(m.txns[tid].request, reply)])
  }

  function Settle(m: State, tid: nat, d: Decision, x: Txn): State
    requires tid in m.txns
  {
    match d
    case Refuse(e) => Finish(m, tid, Raised(e))
    case Go(plan, reply) => Put(m, tid, x.(phase := Writing(plan, 0, reply)))
  }

  function AfterStart(m: State, tid: nat, rows: seq<Id>): State
    requires Constraints(m.db) && tid in m.txns && CanStart(m, tid, rows)
  {
    var x, db := m.txns[tid], m.db;
    match x.request
    case Create(_, t, _, _, _) =>
      if t !in db.types || !db.types[t].status.Active? then Finish(m, tid, Raised(NotFound))
      else
        var e := db.types[t].event;
        Settle(m, tid, DecideCreate(x.request, db.types[t], db.events[e]), x.(locks := {TypeRow(t)}, events := {e}))
    case Cancel(r, _) =>
      if r !in db.reservations then Finish(m, tid, Raised(NotFound))
      else Settle(m, tid, DecideCancel(x.request, db.reservations[r]), x.(locks := {ReservationRow(r)}))
    case Purchase(r, _, _, _, _, _, _, _, _) =>
      if r !in db.reservations then Finish(m, tid, Raised(NotFound))
      else
        var row := db.reservations[r];
        var t := db.types[row.ticketType];
        Put(m, tid, x.(phase := FetchedReservation(row, t, db.events[t.event].salesPaused),
                       locks := {ReservationRow(r)}, events := {t.event}))
    case IssueRefund(o, _, _, _, _, _) =>
      if !MayRefund(db, x.request) then Finish(m, tid, Raised(NotFound))
      else if db.orders[o].status.Refunded? || db.orders[o].status.Failed? then Finish(m, tid, Raised(InvalidRefund))
      else Put(m, tid, x.(phase := FetchedOrder(db.orders[o]), locks := {OrderRow(o)}))
    case Sweep(now, _) =>
      Put(m, tid, x.(request := Sweep(now, rows),
                     phase := Writing(SweepPlan(db.reservations, rows), 0, SweepReply(|rows|)),
                     locks := set r | r in rows :: ReservationRow(r)))
    case SetPaused(_, _) => m
  }

  function AfterLook(m: State, tid: nat): State
    requires tid in m.txns
  {
    var x := m.txns[tid];
    match x.phase
    case FetchedReservation(row, t, paused) =>
      if !x.request.Purchase? then m
      else if x.request.key in m.db.keyIndex then
        var winner := m.db.keyIndex[x.request.key];
        Put(m, tid, x.(phase := Writing(CollisionPlan(x.request, winner), 0, OrderReply(winner))))
      else Settle(m, tid, DecidePurchase(x.request, row, t, paused), x)
    case FetchedOrder(o) =>
      if !x.request.IssueRefund? || o.quantity < 1 then m
      else Settle(m, tid, DecideRefund(x.request, o, RefundTargets(m.db, x.request)), x)
    case _ => m
  }

  function Do(m: State, a: Action): State
    requires Constraints(m.db) && Enabled(m, a)
  {
    match a
    case Begin(tid, q) => Put(m, tid, Txn(q, Waiting, NO_WRITES, {}, {}))
    case Start(tid, rows) => AfterStart(m, tid, rows)
    case Look(tid) => AfterLook(m, tid)
    case Execute(tid) =>
      var x := m.txns[tid];
      var s := x.phase.plan[x.phase.pc];
      Put(m, tid, x.(phase := x.phase.(pc := x.phase.pc + 1), writes := Exec(m.db, x.writes, s),
                     locks := x.locks + Needs(s)))
    case Collide(tid) =>
      var x := m.txns[tid];
      var winner := m.db.keyIndex[x.request.key];
      Put(m, tid, x.(phase := Writing(CollisionPlan(x.request, winner), 0, OrderReply(winner)), writes := NO_WRITES))
    case Clash(tid) => Finish(m, tid, Raised(ClashError(m.txns[tid].phase.plan[m.txns[tid].phase.pc])))
    case Commit(tid) =>
      var x := m.txns[tid];
      State(Merge(m.db, x.writes), m.txns - {tid}, m.history + [Entry(x.request, x.phase.reply)])
    case Crash(tid) => m.(txns := m.txns - {tid})
    case Toggle(e, paused) =>
      m.(db := m.db.(events := m.db.events[e := m.db.events[e].(salesPaused := paused)]),
         history := m.history + [Entry(SetPaused(e, paused), Done)])
  }

  // ---------- what an open transaction may rely on ----------

  predicate SameTerms(a: TicketType, b: TicketType) {
    b == a.(sold := b.sold, held := b.held)
  }

  predicate CreateDecided(db: Db, x: Txn, plan: seq<Stmt>, reply: Reply)
    requires x.request.Create?
  {
    var t := x.request.ticketType;
    && x.request.quantity >= 1
    && t in db.types && db.types[t].event in db.events
    && TypeRow(t) in x.locks && db.types[t].event in x.events
    && DecideCreate(x.request, db.types[t], db.events[db.types[t].event]) == Go(plan, reply)
  }

  predicate CancelDecided(db: Db, x: Txn, plan: seq<Stmt>, reply: Reply)
    requires x.request.Cancel?
  {
    var r := x.request.reservation;
    && r in db.reservations && ReservationRow(r) in x.locks
    && DecideCancel(x.request, db.reservations[r]) == Go(plan, reply)
  }

  /** The reservation a purchase has locked, with its ticket type and event. */
  predicate PurchaseBase(db: Db, x: Txn)
    requires x.request.Purchase?
  {
    var p := x.request;
    && !p.late && p.reservation in db.reservations && ReservationRow(p.reservation) in x.locks
    && |p.newTickets| == db.reservations[p.reservation].quantity
    && db.reservations[p.reservation].ticketType in db.types
    && var t := db.types[db.reservations[p.reservation].ticketType];
    t.event in db.events && t.event in x.events
  }

  predicate PurchaseDecided(db: Db, x: Txn, plan: seq<Stmt>, reply: Reply)
    requires x.request.Purchase?
  {
    && PurchaseBase(db, x)
    && var row := db.reservations[x.request.reservation];
    var t := db.types[row.ticketType];
    DecidePurchase(x.request, row, t, db.events[t.event].salesPaused) == Go(plan, reply)
  }

  /** A duplicate: an order with the key is committed, and orders stay. */
  predicate Duplicate(db: Db, x: Txn, plan: seq<Stmt>, reply: Reply)
    requires x.request.Purchase?
  {
    && PurchaseBase(db, x) && x.request.key in db.keyIndex
    && plan == CollisionPlan(x.request, db.keyIndex[x.request.key])
    && reply == OrderReply(db.keyIndex[x.request.key])
  }

  predicate RefundBase(db: Db, x: Txn)
    requires x.request.IssueRefund?
  {
    && MayRefund(db, x.request) && OrderRow(x.request.order) in x.locks
    && var o := db.orders[x.request.order];
    o.quantity >= 1 && !o.status.Refunded? && !o.status.Failed?
  }

  predicate RefundDecided(db: Db, x: Txn, plan: seq<Stmt>, reply: Reply)
    requires x.request.IssueRefund?
  {
    && RefundBase(db, x)
    && DecideRefund(x.request, db.orders[x.request.order], RefundTargets(db, x.request)) == Go(plan, reply)
  }

  predicate SweepDecided(db: Db, x: Txn, plan: seq<Stmt>, reply: Reply)
    requires x.request.Sweep?
  {
    && Selection(db, x.request.now, x.request.rows)
    && (forall r | r in x.request.rows :: ReservationRow(r) in x.locks)
    && plan == SweepPlan(db.reservations, x.request.rows) && reply == SweepReply(|x.request.rows|)
  }

  /** The plan is the one the service would choose on the database as it is now. */
  predicate Decided(db: Db, x: Txn, plan: seq<Stmt>, reply: Reply) {
    match x.request
    case Create(_, _, _, _, _) => CreateDecided(db, x, plan, reply)
    case Cancel(_, _) => CancelDecided(db, x, plan, reply)
    case Purchase(_, _, _, _, _, _, _, _, _) => PurchaseDecided(db, x, plan, reply) || Duplicate(db, x, plan, reply)
    case IssueRefund(_, _, _, _, _, _) => RefundDecided(db, x, plan, reply)
    case Sweep(_, _) => SweepDecided(db, x, plan, reply)
    case SetPaused(_, _) => false
  }

  predicate TxnOk(db: Db, x: Txn) {
    match x.phase
    case Waiting => x.writes == NO_WRITES && x.locks == {} && Launchable(x.request)
    case FetchedReservation(row, t, paused) =>
      && x.writes == NO_WRITES && x.request.Purchase? && PurchaseBase(db, x)
      && row == db.reservations[x.request.reservation]
      && SameTerms(t, db.types[row.ticketType]) && paused == db.events[t.event].salesPaused
    case FetchedOrder(o) =>
      x.writes == NO_WRITES && x.request.IssueRefund? && RefundBase(db, x) && o == db.orders[x.request.order]
    case Writing(plan, pc, reply) =>
      && pc <= |plan| && Decided(db, x, plan, reply)
      && Claimed(db, plan, pc, x.locks) && x.writes == WritesAfter(db, plan, pc)
  }

  /** The machine's invariant: the committed database is the serial run of the history. */
  ghost predicate MachineOk(init: Db, m: State) {
    && Inv(init) && Inv(m.db)
    && Replay(init, m.history) == Some(m.db)
    && (forall t | t in m.txns :: TxnOk(m.db, m.txns[t]))
    && (forall t, u | t in m.txns && u in m.txns && t != u :: m.txns[t].locks !! m.txns[u].locks)
  }
}

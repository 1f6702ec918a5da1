/** Concurrent transactions, one SQL statement at a time, under READ COMMITTED.

    A transaction's writes stay private until it commits. Row locks are exclusive and last
    until the transaction ends. Only the row a query names is locked: the ticket type in
    create_reservation; the reservation in process_purchase, cancel_reservation and the
    sweep; the order in issue_refund. UPDATE and INSERT lock what they write. The event
    row read by create_reservation and process_purchase is share-locked, so that pausing
    sales waits for them. */
module Machine {
  import opened Schema
  import opened Services

  datatype Lock =
    | TypeRow(ticketType: Id) | ReservationRow(reservation: Id) | OrderRow(order: Id)
    | KeySlot(key: string) | TicketSlot(ticket: Id) | RefundSlot(refund: Id)

  /** A writing statement, with the Python values bound into it. */
  datatype Stmt =
    | AddCounters(ticketType: Id, soldDelta: int, heldDelta: int)
    | WriteHeld(ticketType: Id, held: int)
    | InsertReservation(newReservation: Id, reservationRow: Reservation)
    | SetReservation(reservation: Id, reservationStatus: ReservationStatus)
    | InsertOrder(newOrder: Id, orderRow: Order)
    | SetOrder(order: Id, orderStatus: OrderStatus, paymentId: string, captured: int)
    | InsertTickets(newTickets: seq<Id>, order: Id)
    | InsertRefund(newRefund: Id, refundRow: Refund)
    | LinkRefund(refund: Id, ticket: Option<Id>)
    | ReturnTickets(order: Id, only: seq<Id>)
    | SettleOrder(order: Id)
    | WriteLog(actor: string, change: Change)
    | LogRefund(actor: string, refund: Id, order: Id, amount: int, count: int)

  const NO_WRITES := Db(map[], map[], map[], map[], map[], map[], map[], [])

  /** What a transaction sees: the latest committed rows under its own writes. */
  function Merge(db: Db, w: Db): Db {
    Db(db.events, db.types + w.types, db.reservations + w.reservations, db.orders + w.orders,
       db.keyIndex + w.keyIndex, db.tickets + w.tickets, db.refunds + w.refunds, db.audit + w.audit)
  }

  function Matching(tickets: map<Id, Ticket>, o: Id, only: seq<Id>): set<Id> {
    set t | t in ActiveTickets(tickets, o) && (only == [] || t in only)
  }

  /** The transaction's writes after one more statement, evaluated on what it sees now. */
  function Exec(db: Db, w: Db, s: Stmt): Db {
    match s
    case AddCounters(t, sold, held) =>
      var seen := db.types + w.types;
      if t in seen then w.(types := w.types[t := Move(seen[t], sold, held)]) else w
    case WriteHeld(t, held) =>
      var seen := db.types + w.types;
      if t in seen then w.(types := w.types[t := seen[t].(held := held)]) else w
    case InsertReservation(r, row) => w.(reservations := w.reservations[r := row])
    case SetReservation(r, status) =>
      var seen := db.reservations + w.reservations;
      if r in seen then w.(reservations := w.reservations[r := seen[r].(status := status)]) else w
    case InsertOrder(o, row) => w.(orders := w.orders[o := row], keyIndex := w.keyIndex[row.key := o])
    case SetOrder(o, status, pid, captured) =>
      var seen := db.orders + w.orders;
      if o in seen then
        w.(orders := w.orders[o := seen[o].(status := status, paymentId := pid, captured := captured)])
      else w
    case InsertTickets(ids, o) => w.(tickets := WithTickets(w.tickets, ids, o))
    case InsertRefund(f, row) => w.(refunds := w.refunds[f := row])
    case LinkRefund(f, ticket) =>
      var seen := db.refunds + w.refunds;
      if f in seen then w.(refunds := w.refunds[f := seen[f].(ticket := ticket)]) else w
    case ReturnTickets(o, only) =>
      var seen := db.tickets + w.tickets;
      w.(tickets := w.tickets + map t | t in Matching(seen, o, only) :: seen[t].(status := TicketStatus.Refunded))
    case SettleOrder(o) =>
      var seen := db.orders + w.orders;
      var status := if ActiveTickets(db.tickets + w.tickets, o) == {} then OrderStatus.Refunded
                    else OrderStatus.PartiallyRefunded;
      if o in seen then w.(orders := w.orders[o := seen[o].(status := status)]) else w
    case WriteLog(actor, change) => w.(audit := w.audit + [AuditRow(actor, change)])
    case LogRefund(actor, f, o, amount, n) =>
      var seen := db.orders + w.orders;
      if o in seen then w.(audit := w.audit + [AuditRow(actor, RefundIssued(f, o, amount, n, seen[o].status))]) else w
  }

  /** The writes of the first k statements of a plan. */
  function WritesAfter(db: Db, plan: seq<Stmt>, k: nat): Db
    requires k <= |plan|
  {
    if k == 0 then NO_WRITES else Exec(db, WritesAfter(db, plan, k - 1), plan[k - 1])
  }

  /** The locks a statement takes, or needs to hold already. */
  function Needs(s: Stmt): set<Lock> {
    match s
    case AddCounters(t, _, _) => {TypeRow(t)}
    case WriteHeld(t, _) => {TypeRow(t)}
    case InsertReservation(r, _) => {ReservationRow(r)}
    case SetReservation(r, _) => {ReservationRow(r)}
    case InsertOrder(o, row) => {OrderRow(o), KeySlot(row.key)}
    case SetOrder(o, _, _, _) => {OrderRow(o)}
    case InsertTickets(ids, o) => (set t | t in ids :: TicketSlot(t)) + {OrderRow(o)}
    case InsertRefund(f, _) => {RefundSlot(f)}
    case LinkRefund(f, _) => {RefundSlot(f)}
    case ReturnTickets(o, _) => {OrderRow(o)}
    case SettleOrder(o) => {OrderRow(o)}
    case WriteLog(_, _) => {}
    case LogRefund(_, _, o, _, _) => {OrderRow(o)}
  }

  /** An INSERT finds no committed row, and no row of its own, in its way. */
  predicate Vacant(db: Db, s: Stmt) {
    match s
    case InsertReservation(r, _) => r !in db.reservations
    case InsertOrder(o, row) => o !in db.orders && row.key !in db.keyIndex
    case InsertTickets(ids, _) => Mintable(db, ids)
    case InsertRefund(f, _) => f !in db.refunds
    case _ => true
  }

  /** A counter UPDATE leaves a row its CHECK constraints accept. */
  predicate Passes(db: Db, w: Db, s: Stmt) {
    match s
    case AddCounters(t, _, _) => var w' := Exec(db, w, s); t in w'.types ==> TypeFits(w'.types[t])
    case WriteHeld(t, _) => var w' := Exec(db, w, s); t in w'.types ==> TypeFits(w'.types[t])
    case _ => true
  }

  /** An INSERT meets a committed row with the primary key it drew. An order whose idempotency
      key is taken as well is a duplicate instead. */
  predicate Clashes(db: Db, s: Stmt) {
    match s
    case InsertReservation(r, _) => r in db.reservations
    case InsertOrder(o, row) => o in db.orders && row.key !in db.keyIndex
    case InsertTickets(ids, _) => !Mintable(db, ids)
    case InsertRefund(f, _) => f in db.refunds
    case _ => false
  }

  /** What the exception becomes: process_purchase looks for an order with its key and finds none. */
  function ClashError(s: Stmt): Error {
    if s.InsertOrder? then NotFound else DatabaseError
  }

  // ---------- the statements each service decides to run ----------

  datatype Decision = Refuse(error: Error) | Go(plan: seq<Stmt>, reply: Reply)

  function DecideCreate(c: Request, t: TicketType, e: Event): Decision
    requires c.Create?
  {
    if !t.status.Active? then Refuse(NotFound)
    else if e.salesPaused then Refuse(SalesPaused)
    else if t.capacity - t.sold - t.held < c.quantity then Refuse(InsufficientCapacity)
    else Go([WriteHeld(c.ticketType, t.held + c.quantity),
             InsertReservation(c.newReservation,
                               Reservation(c.user.id, c.ticketType, c.quantity, ReservationStatus.Active,
                                           c.now + e.holdMinutes * MINUTE)),
             WriteLog(c.user.email, InventoryHeld(c.ticketType, c.quantity, c.newReservation))],
            ReservationReply(c.newReservation))
  }

  function ReleasePlan(r: Id, row: Reservation, status: ReservationStatus, actor: string, change: Change): seq<Stmt> {
    [AddCounters(row.ticketType, 0, -row.quantity), SetReservation(r, status), WriteLog(actor, change)]
  }

  function DecideCancel(c: Request, row: Reservation): Decision
    requires c.Cancel?
  {
    if row.user != c.user.id && !c.user.staff then Refuse(AccessDenied)
    else if !row.status.Active? then Go([], ReservationReply(c.reservation))
    else Go(ReleasePlan(c.reservation, row, ReservationStatus.Cancelled, c.user.email,
                        HoldCancelled(c.reservation, row.quantity)),
            ReservationReply(c.reservation))
  }

  function CollisionPlan(p: Request, winner: Id): seq<Stmt>
    requires p.Purchase?
  {
    [WriteLog(p.actor, IdempotencyCollision(winner, p.key))]
  }

  function PurchasePlan(p: Request, row: Reservation, o: Order): seq<Stmt>
    requires p.Purchase?
  {
    if p.capture.Declined? then
      [InsertOrder(p.newOrder, o), SetOrder(p.newOrder, OrderStatus.Failed, "", 0)]
    else
      [InsertOrder(p.newOrder, o),
       AddCounters(row.ticketType, row.quantity, -row.quantity),
       InsertTickets(p.newTickets, p.newOrder),
       SetOrder(p.newOrder, OrderStatus.Confirmed, PaymentId(p.capture), AmountDue(o)),
       SetReservation(p.reservation, ReservationStatus.Confirmed),
       WriteLog(p.actor, InventorySold(row.ticketType, -row.quantity, row.quantity, p.newOrder, o.total))]
  }

  /** What the purchase does once it has looked its key up and found nothing. */
  function DecidePurchase(p: Request, row: Reservation, t: TicketType, paused: bool): Decision
    requires p.Purchase?
  {
    if paused then Refuse(SalesPaused)
    else if !row.status.Active? then Refuse(ReservationNotActive)
    else if row.expiresAt < p.now then Refuse(ReservationExpired)
    else
      var o := NewOrder(p, row, t);
      if !OrderFits(o) then Refuse(DatabaseError)
      else Go(PurchasePlan(p, row, o), if p.capture.Declined? then Raised(PaymentFailed) else OrderReply(p.newOrder))
  }

  function RefundPlan(f: Request, o: Order, targets: set<Id>): seq<Stmt>
    requires f.IssueRefund? && f.gateway.Approved? && o.quantity >= 1
  {
    var n, amount := |targets|, UnitCharge(o) * |targets|;
    var link := if f.ticketIds != [] && n == 1 then OnlyMember(targets) else None;
    [InsertRefund(f.newRefund, Refund(f.order, None, amount, PaymentId(f.gateway))),
     ReturnTickets(f.order, f.ticketIds),
     LinkRefund(f.newRefund, link),
     AddCounters(o.ticketType, -n, 0),
     SettleOrder(f.order),
     LogRefund(f.actor, f.newRefund, f.order, amount, n)]
  }

  function DecideRefund(f: Request, o: Order, targets: set<Id>): Decision
    requires f.IssueRefund? && o.quantity >= 1
  {
    if targets == {} then Refuse(InvalidRefund)
    else if f.gateway.Declined? then Refuse(PaymentRefundFailed)
    else if !InRange(UnitCharge(o) * |targets|) || UnitCharge(o) * |targets| == 0 then Refuse(DatabaseError)
    else Go(RefundPlan(f, o, targets), RefundReply(f.newRefund))
  }

  /** The sweep's loop, unrolled over the rows its query returned. */
  function SweepPlan(rs: map<Id, Reservation>, rows: seq<Id>): seq<Stmt>
    requires forall r | r in rows :: r in rs
  {
    if rows == [] then []
    else
      var n := |rows| - 1;
      SweepPlan(rs, rows[..n]) +
      ReleasePlan(rows[n], rs[rows[n]], ReservationStatus.Expired, "system_sweep",
                  HoldExpired(rows[n], rs[rows[n]].quantity))
  }

  // ---------- transactions and the machine ----------

  datatype Phase =
    | Waiting
    | FetchedReservation(row: Reservation, ticketType: TicketType, paused: bool)
    | FetchedOrder(order: Order)
    | Writing(plan: seq<Stmt>, pc: nat, reply: Reply)

  datatype Txn = Txn(request: Request, phase: Phase, writes: Db, locks: set<Lock>, events: set<Id>)

  /** `history` lists the finished requests in the order they took effect. */
  datatype State = State(db: Db, txns: map<nat, Txn>, history: seq<Entry>)

  datatype Action =
    | Begin(tid: nat, request: Request)
    | Start(tid: nat, rows: seq<Id>)
    | Look(tid: nat)
    | Execute(tid: nat)
    | Collide(tid: nat)
    | Clash(tid: nat)
    | Commit(tid: nat)
    | Crash(tid: nat)
    | Toggle(event: Id, paused: bool)
}

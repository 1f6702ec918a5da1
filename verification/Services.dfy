/** What each service function does to the database when its transaction runs alone.
    Every function returns the committed database and what the caller is told. */
module Services {
  import opened Sums
  import opened Schema

  datatype Gateway = Approved(paymentId: string) | Declined

  datatype Request =
    | Create(user: User, ticketType: Id, quantity: int, now: int, newReservation: Id)
    | Cancel(reservation: Id, user: User)
    | Purchase(reservation: Id, key: string, actor: string, now: int, late: bool,
               newOrder: Id, createdAt: int, capture: Gateway, newTickets: seq<Id>)
    | IssueRefund(order: Id, requester: Option<User>, ticketIds: seq<Id>, actor: string,
                  newRefund: Id, gateway: Gateway)
    | Sweep(now: int, rows: seq<Id>)
    | SetPaused(event: Id, paused: bool)

  datatype Error =
    | NotFound | SalesPaused | InsufficientCapacity | AccessDenied | ReservationNotActive
    | ReservationExpired | PaymentFailed | InvalidRefund | PaymentRefundFailed | DatabaseError

  datatype Reply =
    | ReservationReply(reservation: Id)
    | OrderReply(order: Id)
    | RefundReply(refund: Id)
    | SweepReply(count: nat)
    | Done
    | Raised(error: Error)

  datatype Outcome = Outcome(db: Db, reply: Reply)

  /** A finished request and its answer. */
  datatype Entry = Entry(request: Request, reply: Reply)

  // ---------- row edits shared by the services ----------

  function Log(db: Db, actor: string, change: Change): Db {
    db.(audit := db.audit + [AuditRow(actor, change)])
  }

  /** `result.payment_id or "unknown"`. */
  function PaymentId(g: Gateway): string
    requires g.Approved?
  {
    if g.paymentId == "" then "unknown" else g.paymentId
  }

  // ---------- create_reservation, cancel_reservation ----------

  function CreateReservation(db: Db, c: Request): (out: Outcome)
    requires c.Create? && Constraints(db)
  {
    if c.ticketType !in db.types || !db.types[c.ticketType].status.Active? then Outcome(db, Raised(NotFound))
    else
      var t := db.types[c.ticketType];
      if db.events[t.event].salesPaused then Outcome(db, Raised(SalesPaused))
      else if t.capacity - t.sold - t.held < c.quantity then Outcome(db, Raised(InsufficientCapacity))
      else if c.newReservation in db.reservations then Outcome(db, Raised(DatabaseError))
      else
        var row := Reservation(c.user.id, c.ticketType, c.quantity, ReservationStatus.Active,
                               c.now + db.events[t.event].holdMinutes * MINUTE);
        var db' := db.(types := db.types[c.ticketType := Move(t, 0, c.quantity)],
                       reservations := db.reservations[c.newReservation := row]);
        Outcome(Log(db', c.user.email, InventoryHeld(c.ticketType, c.quantity, c.newReservation)),
                ReservationReply(c.newReservation))
  }

  /** The three writes that take an ACTIVE reservation out of the hold. */
  function Release(db: Db, r: Id, status: ReservationStatus, actor: string, change: Change): Db
    requires Constraints(db) && r in db.reservations
  {
    var row := db.reservations[r];
    Log(db.(types := db.types[row.ticketType := Move(db.types[row.ticketType], 0, -row.quantity)],
            reservations := db.reservations[r := row.(status := status)]), actor, change)
  }

  /** Whether `held - quantity` would pass the ticket type's CHECK constraints. */
  predicate Releasable(db: Db, r: Id)
    requires Constraints(db) && r in db.reservations
  {
    TypeFits(Move(db.types[db.reservations[r].ticketType], 0, -db.reservations[r].quantity))
  }

  lemma ReleaseKeepsConstraints(db: Db, r: Id, status: ReservationStatus, actor: string, change: Change)
    requires Constraints(db) && r in db.reservations && Releasable(db, r)
    ensures Constraints(Release(db, r, status, actor, change))
    ensures Release(db, r, status, actor, change).reservations.Keys == db.reservations.Keys
  {
    var d := Release(db, r, status, actor, change);
    assert d.types.Keys == db.types.Keys;
    assert d.reservations.Keys == db.reservations.Keys;
  }

  function CancelReservation(db: Db, c: Request): (out: Outcome)
    requires c.Cancel? && Constraints(db)
  {
    if c.reservation !in db.reservations then Outcome(db, Raised(NotFound))
    else
      var row := db.reservations[c.reservation];
      if row.user != c.user.id && !c.user.staff then Outcome(db, Raised(AccessDenied))
      else if !row.status.Active? then Outcome(db, ReservationReply(c.reservation))
      else if !Releasable(db, c.reservation) then Outcome(db, Raised(DatabaseError))
      else Outcome(Release(db, c.reservation, ReservationStatus.Cancelled, c.user.email,
                           HoldCancelled(c.reservation, row.quantity)),
                   ReservationReply(c.reservation))
  }

  // ---------- process_purchase ----------

  /** The order row as it is inserted, before payment. */
  function NewOrder(p: Request, row: Reservation, t: TicketType): Order
    requires p.Purchase?
  {
    Order(row.user, t.event, p.reservation, row.ticketType, p.key, row.quantity, t.price,
          t.price * row.quantity, t.fee * row.quantity, t.tax * row.quantity,
          OrderStatus.Processing, "", 0, p.createdAt)
  }

  function AmountDue(o: Order): int {
    o.total + o.fees + o.tax
  }

  function Collision(db: Db, p: Request): Outcome
    requires p.Purchase? && p.key in db.keyIndex
  {
    var winner := db.keyIndex[p.key];
    Outcome(Log(db, p.actor, IdempotencyCollision(winner, p.key)), OrderReply(winner))
  }

  function WithOrder(db: Db, id: Id, o: Order): Db {
    db.(orders := db.orders[id := o], keyIndex := db.keyIndex[o.key := id])
  }

  function WithTickets(tickets: map<Id, Ticket>, ids: seq<Id>, o: Id): map<Id, Ticket> {
    tickets + (map t | t in Members(ids) :: Ticket(o, TicketStatus.Active))
  }

  /** The commit path after a successful capture: held becomes sold, tickets exist. */
  function Fulfil(db: Db, p: Request, o: Order): Db
    requires p.Purchase? && p.capture.Approved? && Constraints(db) && p.reservation in db.reservations
  {
    var row := db.reservations[p.reservation];
    var paid := o.(status := OrderStatus.Confirmed, paymentId := PaymentId(p.capture), captured := AmountDue(o));
    var db' := WithOrder(db, p.newOrder, paid)
      .(types := db.types[row.ticketType := Move(db.types[row.ticketType], row.quantity, -row.quantity)],
        tickets := WithTickets(db.tickets, p.newTickets, p.newOrder),
        reservations := db.reservations[p.reservation := row.(status := ReservationStatus.Confirmed)]);
    Log(db', p.actor, InventorySold(row.ticketType, -row.quantity, row.quantity, p.newOrder, o.total))
  }

  /** Primary keys accept the new ticket ids. */
  predicate Mintable(db: Db, ids: seq<Id>) {
    Distinct(ids) && Members(ids) !! db.tickets.Keys
  }

  /** `late` says that the first look at the key ran before another transaction
      committed an order with it, so only the unique index can reveal the order. */
  function ProcessPurchase(db: Db, p: Request): (out: Outcome)
    requires p.Purchase? && Constraints(db)
  {
    if p.reservation !in db.reservations then Outcome(db, Raised(NotFound))
    else if p.key in db.keyIndex && !p.late then Collision(db, p)
    else
      var row := db.reservations[p.reservation];
      var t := db.types[row.ticketType];
      if db.events[t.event].salesPaused then Outcome(db, Raised(SalesPaused))
      else if !row.status.Active? then Outcome(db, Raised(ReservationNotActive))
      else if row.expiresAt < p.now then Outcome(db, Raised(ReservationExpired))
      else
        var o := NewOrder(p, row, t);
        if !OrderFits(o) then Outcome(db, Raised(DatabaseError))
        else if p.key in db.keyIndex then Collision(db, p)
        else if p.newOrder in db.orders then Outcome(db, Raised(NotFound))
        else if p.capture.Declined? then
          Outcome(WithOrder(db, p.newOrder, o.(status := OrderStatus.Failed)), Raised(PaymentFailed))
        else if !TypeFits(Move(t, row.quantity, -row.quantity)) then Outcome(db, Raised(DatabaseError))
        else if !Mintable(db, p.newTickets) then Outcome(db, Raised(DatabaseError))
        else Outcome(Fulfil(db, p, o), OrderReply(p.newOrder))
  }

  // ---------- issue_refund ----------

  /** Tickets the request selects: an empty id list means every ACTIVE ticket. */
  function RefundTargets(db: Db, f: Request): set<Id>
    requires f.IssueRefund?
  {
    set t | t in ActiveTickets(db.tickets, f.order) && (f.ticketIds == [] || t in f.ticketIds)
  }

  function MarkRefunded(tickets: map<Id, Ticket>, targets: set<Id>): map<Id, Ticket> {
    map t | t in tickets :: if t in targets then tickets[t].(status := TicketStatus.Refunded) else tickets[t]
  }

  function OnlyMember(s: set<Id>): Option<Id>
    requires |s| == 1
  {
    assert s != {};
    Some(Least(s))
  }

  /** The order's status once `targets` are refunded. */
  function StatusAfter(db: Db, o: Id, targets: set<Id>): OrderStatus {
    if ActiveTickets(db.tickets, o) - targets == {} then OrderStatus.Refunded else OrderStatus.PartiallyRefunded
  }

  function Refunding(db: Db, f: Request, targets: set<Id>): Db
    requires f.IssueRefund? && f.gateway.Approved? && Constraints(db) && f.order in db.orders
  {
    var o := db.orders[f.order];
    var amount := UnitCharge(o) * |targets|;
    var link := if f.ticketIds != [] && |targets| == 1 then OnlyMember(targets) else None;
    var status := StatusAfter(db, f.order, targets);
    var db' := db.(refunds := db.refunds[f.newRefund := Refund(f.order, link, amount, PaymentId(f.gateway))],
                   tickets := MarkRefunded(db.tickets, targets),
                   types := db.types[o.ticketType := Move(db.types[o.ticketType], -|targets|, 0)],
                   orders := db.orders[f.order := o.(status := status)]);
    Log(db', f.actor, RefundIssued(f.newRefund, f.order, amount, |targets|, status))
  }

  /** `Order.objects.get(id=..., user=...)`: staff and internal callers are not scoped. */
  predicate MayRefund(db: Db, f: Request)
    requires f.IssueRefund?
  {
    && f.order in db.orders
    && (f.requester.Some? && !f.requester.value.staff ==> db.orders[f.order].user == f.requester.value.id)
  }

  function RefundOrder(db: Db, f: Request): (out: Outcome)
    requires f.IssueRefund? && Constraints(db)
  {
    if !MayRefund(db, f) then Outcome(db, Raised(NotFound))
    else
      var o := db.orders[f.order];
      if o.status.Refunded? || o.status.Failed? then Outcome(db, Raised(InvalidRefund))
      else
        var targets := RefundTargets(db, f);
        if targets == {} then Outcome(db, Raised(InvalidRefund))
        else if f.gateway.Declined? then Outcome(db, Raised(PaymentRefundFailed))
        else if !InRange(UnitCharge(o) * |targets|) || UnitCharge(o) * |targets| == 0 then
          Outcome(db, Raised(DatabaseError))
        else if f.newRefund in db.refunds then Outcome(db, Raised(DatabaseError))
        else if !TypeFits(Move(db.types[o.ticketType], -|targets|, 0)) then Outcome(db, Raised(DatabaseError))
        else Outcome(Refunding(db, f, targets), RefundReply(f.newRefund))
  }

  // ---------- sweep_expired_reservations ----------

  predicate Stale(db: Db, now: int, r: Id) {
    r in db.reservations && db.reservations[r].status.Active? && db.reservations[r].expiresAt < now
  }

  /** What SELECT ... FOR UPDATE SKIP LOCKED may return: stale ACTIVE rows, each once. */
  predicate Selection(db: Db, now: int, rows: seq<Id>) {
    Distinct(rows) && forall r | r in rows :: Stale(db, now, r)
  }

  function ExpireOne(db: Db, r: Id): Db
    requires Constraints(db) && r in db.reservations
  {
    Release(db, r, ReservationStatus.Expired, "system_sweep", HoldExpired(r, db.reservations[r].quantity))
  }

  /** The loop over the selected rows; None when a CHECK constraint aborts it. */
  function ExpireRows(db: Db, rows: seq<Id>): (out: Option<Db>)
    requires Constraints(db) && forall r | r in rows :: r in db.reservations
    ensures out.Some? ==> Constraints(out.value) && out.value.reservations.Keys == db.reservations.Keys
  {
    if rows == [] then Some(db)
    else
      var n := |rows| - 1;
      match ExpireRows(db, rows[..n])
      case None => None
      case Some(d) =>
        if Releasable(d, rows[n]) then
          ReleaseKeepsConstraints(d, rows[n], ReservationStatus.Expired, "system_sweep",
                                  HoldExpired(rows[n], d.reservations[rows[n]].quantity));
          Some(ExpireOne(d, rows[n]))
        else None
  }

  function SweepExpired(db: Db, s: Request): (out: Outcome)
    requires s.Sweep? && Constraints(db) && Selection(db, s.now, s.rows)
  {
    match ExpireRows(db, s.rows)
    case None => Outcome(db, Raised(DatabaseError))
    case Some(d) => Outcome(d, SweepReply(|s.rows|))
  }

  // ---------- all operations ----------

  /** What the callers guarantee: the serializer's minimum quantity, one new ticket id per
      ticket, a sweep query's result, an existing event. New ids may be any UUIDs; one that
      is taken violates a primary key. */
  predicate Admissible(db: Db, q: Request) {
    match q
    case Create(_, _, n, _, _) => n >= 1
    case Cancel(_, _) => true
    case Purchase(r, _, _, _, _, _, _, _, ids) => r in db.reservations ==> |ids| == db.reservations[r].quantity
    case IssueRefund(_, _, _, _, _, _) => true
    case Sweep(now, rows) => Selection(db, now, rows)
    case SetPaused(e, _) => e in db.events
  }

  function Apply(db: Db, q: Request): (out: Outcome)
    requires Constraints(db) && Admissible(db, q)
  {
    match q
    case Create(_, _, _, _, _) => CreateReservation(db, q)
    case Cancel(_, _) => CancelReservation(db, q)
    case Purchase(_, _, _, _, _, _, _, _, _) => ProcessPurchase(db, q)
    case IssueRefund(_, _, _, _, _, _) => RefundOrder(db, q)
    case Sweep(_, _) => SweepExpired(db, q)
    case SetPaused(e, paused) => Outcome(db.(events := db.events[e := db.events[e].(salesPaused := paused)]), Done)
  }
}

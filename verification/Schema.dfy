/** The rows of the ticketing database and the constraints PostgreSQL itself enforces on them. */
module Schema {
  import opened Sums

  datatype Option<+T> = None | Some(value: T)

  /** Primary keys. The system draws version-4 UUIDs. */
  type Id = nat

  /** The upper end of a PositiveIntegerField column. */
  const MAX_INT := 2147483647

  /** The length of the idempotency key's CharField column. */
  const MAX_KEY := 255

  /** Microseconds in a minute and in a day. */
  const MINUTE := 60_000_000
  const DAY := 1440 * MINUTE

  datatype User = User(id: Id, staff: bool, email: string)

  datatype Event = Event(title: string, holdMinutes: nat, salesPaused: bool)

  datatype TypeStatus = Active | Paused | SoldOut

  datatype TicketType = TicketType(
    event: Id, status: TypeStatus, capacity: int, sold: int, held: int, price: int, fee: int, tax: int)

  datatype ReservationStatus = Active | Confirmed | Expired | Cancelled

  datatype Reservation = Reservation(
    user: Id, ticketType: Id, quantity: int, status: ReservationStatus, expiresAt: int)

  datatype OrderStatus = Processing | Confirmed | PartiallyRefunded | Refunded | Failed

  /** An order. `captured` is bookkeeping of the model: the amount handed to the
      payment provider's successful capture, 0 when there was none. */
  datatype Order = Order(
    user: Id, event: Id, reservation: Id, ticketType: Id, key: string, quantity: int, unitPrice: int,
    total: int, fees: int, tax: int, status: OrderStatus, paymentId: string, captured: int, createdAt: int)

  datatype TicketStatus = Active | Refunded | Cancelled

  datatype Ticket = Ticket(order: Id, status: TicketStatus)

  datatype Refund = Refund(order: Id, ticket: Option<Id>, amount: int, paymentId: string)

  datatype Change =
    | InventoryHeld(ticketType: Id, heldDelta: int, reservation: Id)
    | HoldCancelled(cancelled: Id, released: int)
    | HoldExpired(expired: Id, released: int)
    | InventorySold(ticketType: Id, heldDelta: int, soldDelta: int, order: Id, totalCents: int)
    | RefundIssued(refund: Id, order: Id, amount: int, ticketsRefunded: int, statusNew: OrderStatus)
    | IdempotencyCollision(order: Id, key: string)

  datatype AuditRow = AuditRow(actor: string, change: Change)

  /** The whole database. `keyIndex` is the unique index on Order.idempotency_key. */
  datatype Db = Db(
    events: map<Id, Event>,
    types: map<Id, TicketType>,
    reservations: map<Id, Reservation>,
    orders: map<Id, Order>,
    keyIndex: map<string, Id>,
    tickets: map<Id, Ticket>,
    refunds: map<Id, Refund>,
    audit: seq<AuditRow>)

  predicate InRange(n: int) {
    0 <= n <= MAX_INT
  }

  /** CHECK constraints and column ranges of a ticket type. */
  predicate TypeFits(t: TicketType) {
    && InRange(t.capacity) && InRange(t.sold) && InRange(t.held)
    && InRange(t.price) && InRange(t.fee) && InRange(t.tax)
    && t.sold <= t.capacity - t.held
  }

  /** Column ranges of an order: its amounts are 32-bit, its idempotency key at most
      MAX_KEY characters. Its quantity, which refunds divide by, is at least one. */
  predicate OrderFits(o: Order) {
    && InRange(o.quantity) && o.quantity >= 1 && InRange(o.unitPrice)
    && InRange(o.total) && InRange(o.fees) && InRange(o.tax) && |o.key| <= MAX_KEY
  }

  predicate RefundFits(r: Refund) {
    0 < r.amount <= MAX_INT
  }

  // ---------- what PostgreSQL enforces on every committed state ----------
  // Each constraint reads only the tables it is about; a foreign key reads the
  // referenced table's primary keys.

  ghost predicate TypesLinked(ts: map<Id, TicketType>, events: set<Id>) {
    forall t | t in ts :: ts[t].event in events
  }

  ghost predicate ReservationsLinked(rs: map<Id, Reservation>, types: set<Id>) {
    forall r | r in rs :: rs[r].ticketType in types
  }

  ghost predicate OrdersLinked(os: map<Id, Order>, events: set<Id>, reservations: set<Id>, types: set<Id>) {
    forall o | o in os :: os[o].event in events && os[o].reservation in reservations && os[o].ticketType in types
  }

  ghost predicate TicketsLinked(ts: map<Id, Ticket>, orders: set<Id>) {
    forall t | t in ts :: ts[t].order in orders
  }

  ghost predicate RefundsLinked(fs: map<Id, Refund>, orders: set<Id>) {
    forall f | f in fs :: fs[f].order in orders
  }

  /** The unique index holds exactly the keys of the orders. */
  ghost predicate KeysUnique(index: map<string, Id>, os: map<Id, Order>) {
    && (forall k | k in index :: index[k] in os && os[index[k]].key == k)
    && (forall o | o in os :: os[o].key in index && index[os[o].key] == o)
  }

  ghost predicate TypesFit(ts: map<Id, TicketType>) {
    forall t | t in ts :: TypeFits(ts[t])
  }

  /** The minimum of one ticket comes from the request serializer. */
  ghost predicate ReservationsFit(rs: map<Id, Reservation>) {
    forall r | r in rs :: rs[r].quantity >= 1
  }

  ghost predicate OrdersFit(os: map<Id, Order>) {
    forall o | o in os :: OrderFits(os[o])
  }

  ghost predicate RefundsFit(fs: map<Id, Refund>) {
    forall f | f in fs :: RefundFits(fs[f])
  }

  ghost predicate Constraints(db: Db) {
    && TypesLinked(db.types, db.events.Keys)
    && ReservationsLinked(db.reservations, db.types.Keys)
    && OrdersLinked(db.orders, db.events.Keys, db.reservations.Keys, db.types.Keys)
    && TicketsLinked(db.tickets, db.orders.Keys)
    && RefundsLinked(db.refunds, db.orders.Keys)
    && KeysUnique(db.keyIndex, db.orders)
    && TypesFit(db.types) && ReservationsFit(db.reservations)
    && OrdersFit(db.orders) && RefundsFit(db.refunds)
  }

  lemma OverwriteRow<V>(table: map<Id, V>, k: Id, a: V, b: V)
    ensures table[k := a][k := b] == table[k := b]
  {}

  // What a foreign key points at is there.

  lemma EventKnown(db: Db, t: Id)
    requires Constraints(db) && t in db.types
    ensures db.types[t].event in db.events
  {}

  lemma TypeKnown(db: Db, r: Id)
    requires Constraints(db) && r in db.reservations
    ensures db.reservations[r].ticketType in db.types && db.reservations[r].quantity >= 1
    ensures db.types[db.reservations[r].ticketType].event in db.events
  {}

  lemma OrderKnown(db: Db, o: Id)
    requires Constraints(db) && o in db.orders
    ensures db.orders[o].ticketType in db.types && OrderFits(db.orders[o]) && db.orders[o].quantity >= 1
  {}

  lemma TicketsKnown(db: Db)
    requires Constraints(db)
    ensures TicketsLinked(db.tickets, db.orders.Keys)
  {}

  lemma KeyKnown(db: Db, k: string)
    requires Constraints(db) && k in db.keyIndex
    ensures db.keyIndex[k] in db.orders && db.orders[db.keyIndex[k]].key == k
  {}

  // ---------- derived quantities ----------

  function OrderTickets(ts: map<Id, Ticket>, o: Id): set<Id> {
    set t | t in ts && ts[t].order == o
  }

  /** The ACTIVE tickets of one order. */
  function ActiveTickets(ts: map<Id, Ticket>, o: Id): set<Id> {
    set t | t in ts && ts[t].order == o && ts[t].status.Active?
  }

  /** The ACTIVE tickets whose order is for ticket type tt. */
  function SoldTickets(ts: map<Id, Ticket>, os: map<Id, Order>, tt: Id): set<Id> {
    set t | t in ts && ts[t].status.Active? && ts[t].order in os && os[ts[t].order].ticketType == tt
  }

  function Held(row: Reservation): int {
    if row.status.Active? then row.quantity else 0
  }

  function HeldWeight(rs: map<Id, Reservation>, tt: Id): Id -> int {
    r => if r in rs && rs[r].ticketType == tt then Held(rs[r]) else 0
  }

  function RefundsOf(fs: map<Id, Refund>, o: Id): set<Id> {
    set f | f in fs && fs[f].order == o
  }

  function RefundWeight(fs: map<Id, Refund>, o: Id): Id -> int {
    f => if f in fs && fs[f].order == o then fs[f].amount else 0
  }

  /** The true counts of core/reconciliation.py: tickets are counted, holds are summed. */
  function ActualSold(ts: map<Id, Ticket>, os: map<Id, Order>, tt: Id): int {
    |SoldTickets(ts, os, tt)|
  }

  function ActualHeld(rs: map<Id, Reservation>, tt: Id): int {
    Total(rs.Keys, HeldWeight(rs, tt))
  }

  /** Refund.amount_cents summed over the refunds of one order. */
  function RefundedCents(fs: map<Id, Refund>, o: Id): int {
    Total(fs.Keys, RefundWeight(fs, o))
  }

  /** TicketType.computed_available. */
  function Available(t: TicketType): int {
    t.capacity - t.sold - t.held
  }

  /** Adding to the two counters of a ticket type. */
  function Move(t: TicketType, soldDelta: int, heldDelta: int): TicketType {
    t.(sold := t.sold + soldDelta, held := t.held + heldDelta)
  }

  /** The per-ticket amount a refund pays back, with Python's floor divisions. */
  function UnitCharge(o: Order): int
    requires o.quantity >= 1
  {
    o.unitPrice + o.fees / o.quantity + o.tax / o.quantity
  }
}

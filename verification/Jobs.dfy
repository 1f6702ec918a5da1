/** The Celery job that runs a purchase: its retries, with any other traffic in between. */
module Jobs {
  import opened Schema
  import opened Services
  import opened Invariants
  import opened Preservation
  import opened Runs
  import opened Delivery
  import opened Answers

  /** One execution of the job. `before` is what other transactions commit before it, for instance
      during the delay of a retry. `lost` is a transient failure at any point before COMMIT, which
      rolls everything back. */
  datatype Attempt = Attempt(before: seq<Entry>, lost: bool, now: int, late: bool, newOrder: Id, createdAt: int,
                             capture: Gateway, newTickets: seq<Id>)

  datatype TaskOutcome = Completed(order: Id) | NotCompleted(reason: Error) | DeadLettered

  const MAX_RETRIES := 3

  function AsRequest(reservation: Id, key: string, actor: string, a: Attempt): Request {
    Purchase(reservation, key, actor, a.now, a.late, a.newOrder, a.createdAt, a.capture, a.newTickets)
  }

  /** Expected outcomes, which the job does not retry. */
  predicate DomainError(e: Error) {
    e.ReservationNotActive? || e.ReservationExpired? || e.PaymentFailed? || e.SalesPaused?
  }

  /** The loop of process_purchase_task over its first execution and its retries. None when the
      other traffic is not a run, or an attempt does not bring one id per ticket. */
  ghost function RunTask(db: Db, reservation: Id, key: string, actor: string,
                         attempts: seq<Attempt>): (out: Option<(Db, TaskOutcome)>)
    requires Inv(db)
    ensures out.Some? ==> Inv(out.value.0)
    decreases |attempts|, 1
  {
    if attempts == [] then Some((db, DeadLettered))
    else
      match Replay(db, attempts[0].before)
      case None => None
      case Some(d) =>
        if attempts[0].lost then RunTask(d, reservation, key, actor, attempts[1..])
        else AfterAttempt(d, reservation, key, actor, attempts)
  }

  /** The attempt that reaches its end on d, and the retries if it fails unexpectedly. */
  ghost function AfterAttempt(d: Db, reservation: Id, key: string, actor: string,
                              attempts: seq<Attempt>): (out: Option<(Db, TaskOutcome)>)
    requires Inv(d) && attempts != []
    ensures out.Some? ==> Inv(out.value.0)
    decreases |attempts|, 0
  {
    var p := AsRequest(reservation, key, actor, attempts[0]);
    if !Admissible(d, p) then None
    else
      PurchaseKeepsInv(d, p);
      var out := ProcessPurchase(d, p);
      match out.reply
      case OrderReply(o) => Some((out.db, Completed(o)))
      case Raised(e) =>
        if DomainError(e) then Some((out.db, NotCompleted(e)))
        else RunTask(out.db, reservation, key, actor, attempts[1..])
      case _ => None
  }

  /** What the other transactions did before and between the attempts. */
  function Traffic(attempts: seq<Attempt>): seq<Entry> {
    if attempts == [] then [] else attempts[0].before + Traffic(attempts[1..])
  }

  /** The database attempt j meets, when the attempts before it left nothing: the other traffic alone. */
  ghost function Met(db: Db, attempts: seq<Attempt>, j: nat): Option<Db>
    requires Inv(db) && j < |attempts|
  {
    Replay(db, Traffic(attempts[..j + 1]))
  }

  /** An attempt that is not retried. */
  predicate Conclusive(d: Db, r: Id, key: string, actor: string, a: Attempt)
    requires Constraints(d)
  {
    && !a.lost
    && var reply := ProcessPurchase(d, AsRequest(r, key, actor, a)).reply;
    reply.OrderReply? || (reply.Raised? && DomainError(reply.error))
  }

  ghost predicate ConclusiveAt(db: Db, r: Id, key: string, actor: string, attempts: seq<Attempt>, j: nat)
    requires Inv(db) && j < |attempts|
  {
    && Met(db, attempts, j).Some? && Constraints(Met(db, attempts, j).value)
    && Conclusive(Met(db, attempts, j).value, r, key, actor, attempts[j])
  }

  function ReplyOf(outcome: TaskOutcome): Reply {
    match outcome
    case Completed(o) => OrderReply(o)
    case NotCompleted(e) => Raised(e)
    case DeadLettered => Done
  }

  /** Attempt i is the first conclusive one on the database it meets, and its effect is `out`. */
  ghost predicate DecidedAt(db: Db, r: Id, key: string, actor: string, attempts: seq<Attempt>,
                            out: (Db, TaskOutcome), i: nat)
    requires Inv(db)
  {
    && i < |attempts| && ConclusiveAt(db, r, key, actor, attempts, i)
    && (forall j | 0 <= j < i :: !ConclusiveAt(db, r, key, actor, attempts, j))
    && ProcessPurchase(Met(db, attempts, i).value, AsRequest(r, key, actor, attempts[i]))
       == Outcome(out.0, ReplyOf(out.1))
  }

  /** The first attempt peeled off: what the others meet is what they meet after its traffic. */
  lemma MetLater(db: Db, d: Db, attempts: seq<Attempt>, j: nat)
    requires Inv(db) && attempts != [] && Replay(db, attempts[0].before) == Some(d) && Inv(d)
    requires j + 1 < |attempts|
    ensures Met(db, attempts, j + 1) == Met(d, attempts[1..], j)
  {
    hide Inv, Replay;
    assert attempts[..j + 2][1..] == attempts[1..][..j + 1] && attempts[..j + 2][0] == attempts[0];
    ReplayConcat(db, attempts[0].before, Traffic(attempts[1..][..j + 1]));
  }

  lemma MetFirst(db: Db, attempts: seq<Attempt>)
    requires Inv(db) && attempts != []
    ensures Met(db, attempts, 0) == Replay(db, attempts[0].before)
  {
    hide Inv, Replay;
    assert attempts[..1][1..] == [] && attempts[..1][0] == attempts[0];
    assert Traffic(attempts[..1]) == attempts[0].before;
  }

  /** The job had no effect of its own, or that of its first conclusive attempt. */
  ghost predicate RanOnce(db: Db, r: Id, key: string, actor: string, attempts: seq<Attempt>, out: (Db, TaskOutcome))
    requires Inv(db)
  {
    if out.1.DeadLettered? then
      && Replay(db, Traffic(attempts)) == Some(out.0)
      && forall j | 0 <= j < |attempts| :: !ConclusiveAt(db, r, key, actor, attempts, j)
    else exists i :: DecidedAt(db, r, key, actor, attempts, out, i)
  }

  /** A job has the effect of exactly one of its attempts, or none, whatever other transactions do
      between them: it ends as the first attempt that is conclusive on the database it meets, or
      lands in the dead letter queue with only the other traffic done, exactly when there is no
      such attempt. */
  lemma {:induction false} TaskRunsOnce(db: Db, r: Id, key: string, actor: string, attempts: seq<Attempt>)
    requires Inv(db) && RunTask(db, r, key, actor, attempts).Some?
    ensures RanOnce(db, r, key, actor, attempts, RunTask(db, r, key, actor, attempts).value)
    decreases |attempts|
  {
    hide Inv, Constraints, ProcessPurchase, Conclusive, Replay, AfterAttempt, Met;
    if attempts == [] {
      ReplayNothing(db);
    } else {
      var d := Replay(db, attempts[0].before).value;
      InvBasics(d);
      MetFirst(db, attempts);
      FirstAttempt(d, r, key, actor, attempts);
      var out := RunTask(db, r, key, actor, attempts).value;
      if Conclusive(d, r, key, actor, attempts[0]) {
        assert DecidedAt(db, r, key, actor, attempts, out, 0);
      } else {
        TaskRunsOnce(d, r, key, actor, attempts[1..]);
        RestRanOnce(db, d, r, key, actor, attempts, out);
      }
    }
  }

  lemma ReplayNothing(db: Db)
    requires Inv(db)
    ensures Replay(db, []) == Some(db)
  {}

  /** An attempt that is retried left the database as it met it. */
  lemma FirstAttempt(d: Db, r: Id, key: string, actor: string, attempts: seq<Attempt>)
    requires Inv(d) && Constraints(d) && attempts != []
    requires !attempts[0].lost ==> AfterAttempt(d, r, key, actor, attempts).Some?
    ensures Conclusive(d, r, key, actor, attempts[0]) ==> !attempts[0].lost
    ensures if Conclusive(d, r, key, actor, attempts[0]) then
              var out := AfterAttempt(d, r, key, actor, attempts).value;
              ProcessPurchase(d, AsRequest(r, key, actor, attempts[0])) == Outcome(out.0, ReplyOf(out.1))
              && !out.1.DeadLettered?
            else !attempts[0].lost ==>
              AfterAttempt(d, r, key, actor, attempts) == RunTask(d, r, key, actor, attempts[1..])
  {
    hide Inv, Constraints, ProcessPurchase, RunTask;
    PurchaseReplies(d, AsRequest(r, key, actor, attempts[0]));
  }

  lemma RestRanOnce(db: Db, d: Db, r: Id, key: string, actor: string, attempts: seq<Attempt>, out: (Db, TaskOutcome))
    requires Inv(db) && Inv(d) && Constraints(d) && attempts != [] && Replay(db, attempts[0].before) == Some(d)
    requires !Conclusive(d, r, key, actor, attempts[0]) && RanOnce(d, r, key, actor, attempts[1..], out)
    ensures RanOnce(db, r, key, actor, attempts, out)
  {
    hide Inv, Constraints, ProcessPurchase, Conclusive, Replay, Met;
    var rest := attempts[1..];
    MetFirst(db, attempts);
    forall j | 0 <= j < |rest|
      ensures Met(db, attempts, j + 1) == Met(d, rest, j)
      ensures ConclusiveAt(db, r, key, actor, attempts, j + 1) <==> ConclusiveAt(d, r, key, actor, rest, j)
    {
      MetLater(db, d, attempts, j);
    }
    assert !ConclusiveAt(db, r, key, actor, attempts, 0);
    if out.1.DeadLettered? {
      ReplayConcat(db, attempts[0].before, Traffic(rest));
      forall j | 0 <= j < |attempts| ensures !ConclusiveAt(db, r, key, actor, attempts, j) {
        assert j == 0 || !ConclusiveAt(d, r, key, actor, rest, j - 1);
      }
    } else {
      var i: nat :| DecidedAt(d, r, key, actor, rest, out, i);
      forall j | 0 <= j < i + 1 ensures !ConclusiveAt(db, r, key, actor, attempts, j) {
        assert j == 0 || !ConclusiveAt(d, r, key, actor, rest, j - 1);
      }
      assert DecidedAt(db, r, key, actor, attempts, out, i + 1);
    }
  }

  /** Two runs one after the other. */
  lemma {:induction false} ReplayConcat(db: Db, a: seq<Entry>, b: seq<Entry>)
    requires Inv(db) && Replay(db, a).Some?
    ensures Replay(db, a + b) == Replay(Replay(db, a).value, b)
  {
    hide Inv, Extend;
    if b == [] {
      assert a + b == a;
    } else {
      var n := |b| - 1;
      assert (a + b)[..|a| + n] == a + b[..n] && (a + b)[|a| + n] == b[n];
      ReplayConcat(db, a, b[..n]);
    }
  }

  /** When every attempt fails unexpectedly, on its own and with nobody else about, the job ends
      in the dead letter queue and nothing has changed. */
  lemma {:induction false} RetriesExhausted(d: Db, r: Id, key: string, actor: string, attempts: seq<Attempt>)
    requires Inv(d) && Constraints(d)
    requires forall a | a in attempts ::
               a.before == [] && !a.lost && Admissible(d, AsRequest(r, key, actor, a))
               && ProcessPurchase(d, AsRequest(r, key, actor, a)) == Outcome(d, Raised(DatabaseError))
    ensures RunTask(d, r, key, actor, attempts) == Some((d, DeadLettered))
    decreases |attempts|
  {
    hide Inv, Constraints, ProcessPurchase, Admissible, Replay;
    if attempts != [] {
      ReplayNothing(d);
      assert attempts[0] in attempts && forall a | a in attempts[1..] :: a in attempts;
      RetriesExhausted(d, r, key, actor, attempts[1..]);
    }
  }

  // ---------- what ends the job, by the state an attempt meets ----------

  /** Lost attempts leave no trace: attempt i begins on the database it meets. */
  lemma {:induction false} LostLeaveNothing(db: Db, r: Id, key: string, actor: string, attempts: seq<Attempt>, i: nat)
    requires Inv(db) && i < |attempts| && Met(db, attempts, i).Some? && !attempts[i].lost
    requires forall j | 0 <= j < i :: attempts[j].lost
    ensures RunTask(db, r, key, actor, attempts)
         == AfterAttempt(Met(db, attempts, i).value, r, key, actor, attempts[i..])
    decreases i
  {
    hide Inv, Replay, AfterAttempt;
    if i == 0 {
      MetFirst(db, attempts);
      assert attempts[0..] == attempts;
    } else {
      var rest := attempts[1..];
      FirstMeets(db, attempts, i);
      var d := Replay(db, attempts[0].before).value;
      MetLater(db, d, attempts, i - 1);
      LostLeaveNothing(d, r, key, actor, rest, i - 1);
      assert rest[i - 1..] == attempts[i..];
    }
  }

  lemma FirstMeets(db: Db, attempts: seq<Attempt>, i: nat)
    requires Inv(db) && i < |attempts| && Met(db, attempts, i).Some?
    ensures Replay(db, attempts[0].before).Some? && Inv(Replay(db, attempts[0].before).value)
  {
    hide Inv, Replay;
    var all := Traffic(attempts[..i + 1]);
    assert attempts[..i + 1][0] == attempts[0];
    ReplaySplit(db, all, |attempts[0].before|);
    assert all[..|attempts[0].before|] == attempts[0].before;
  }

  /** Which answers end the job: an order, and four expected errors. Anything else is retried. */
  lemma ByAnswer(d: Db, r: Id, key: string, actor: string, attempts: seq<Attempt>)
    requires Inv(d) && Constraints(d) && attempts != [] && Admissible(d, AsRequest(r, key, actor, attempts[0]))
    ensures var run, out := AfterAttempt(d, r, key, actor, attempts),
                            ProcessPurchase(d, AsRequest(r, key, actor, attempts[0]));
            && (out.reply.OrderReply? ==> run == Some((out.db, Completed(out.reply.order))))
            && (out.reply == Raised(SalesPaused) ==> run == Some((d, NotCompleted(SalesPaused))))
            && (out.reply == Raised(ReservationNotActive) ==> run == Some((d, NotCompleted(ReservationNotActive))))
            && (out.reply == Raised(ReservationExpired) ==> run == Some((d, NotCompleted(ReservationExpired))))
            && (out.reply == Raised(PaymentFailed) ==> run == Some((out.db, NotCompleted(PaymentFailed))))
            && (out.reply == Raised(NotFound) || out.reply == Raised(DatabaseError) ==>
                  run == RunTask(d, r, key, actor, attempts[1..]))
  {
    hide Inv, Constraints, ProcessPurchase, RunTask;
    PurchaseReplies(d, AsRequest(r, key, actor, attempts[0]));
  }

  /** The first attempt that is not lost ends the job at once when it finds its key used, sales
      paused, the hold ended, its deadline past, the payment declined or the sale done; the job
      goes on to its next attempt when it finds no such reservation or the database objects. */
  lemma AttemptEndsJob(db: Db, r: Id, key: string, actor: string, attempts: seq<Attempt>, i: nat)
    requires Inv(db) && i < |attempts| && Met(db, attempts, i).Some? && !attempts[i].lost
    requires forall j | 0 <= j < i :: attempts[j].lost
    requires var d := Met(db, attempts, i).value;
             Constraints(d) && (r in d.reservations ==> |attempts[i].newTickets| == d.reservations[r].quantity)
    ensures var d, a := Met(db, attempts, i).value, attempts[i];
            var run, next := RunTask(db, r, key, actor, attempts), RunTask(d, r, key, actor, attempts[i + 1..]);
            if r !in d.reservations then run == next
            else if key in d.keyIndex && !a.late then run.Some? && run.value.1 == Completed(d.keyIndex[key])
            else
              var row := d.reservations[r];
              var t := d.types[row.ticketType];
              if d.events[t.event].salesPaused then run == Some((d, NotCompleted(SalesPaused)))
              else if !row.status.Active? then run == Some((d, NotCompleted(ReservationNotActive)))
              else if row.expiresAt < a.now then run == Some((d, NotCompleted(ReservationExpired)))
              else if !ColumnsFit(key, row.quantity, t) then run == next
              else if key in d.keyIndex then run.Some? && run.value.1 == Completed(d.keyIndex[key])
              else if a.newOrder in d.orders then run == next
              else if a.capture.Declined? then
                run == Some((d.(orders := d.orders[a.newOrder := DeclinedOrder(AsRequest(r, key, actor, a), row, t)],
                                keyIndex := d.keyIndex[key := a.newOrder]), NotCompleted(PaymentFailed)))
              else if !IdsFree(d, a.newTickets) then run == next
              else run.Some? && run.value.1 == Completed(a.newOrder)
                   && a.newOrder in run.value.0.orders && run.value.0.orders[a.newOrder].status.Confirmed?
  {
    hide Inv, Constraints, Replay, Met, ProcessPurchase, RunTask, AfterAttempt, ColumnsFit, IdsFree, DeclinedOrder;
    var d, a := Met(db, attempts, i).value, attempts[i];
    MetSound(db, attempts, i);
    LostLeaveNothing(db, r, key, actor, attempts, i);
    assert attempts[i..][0] == a && attempts[i..][1..] == attempts[i + 1..];
    ByAnswer(d, r, key, actor, attempts[i..]);
    PurchaseAnswers(d, AsRequest(r, key, actor, a));
    DeclineIsRecorded(d, AsRequest(r, key, actor, a));
    SaleConfirmed(d, AsRequest(r, key, actor, a));
  }

  lemma MetSound(db: Db, attempts: seq<Attempt>, i: nat)
    requires Inv(db) && i < |attempts| && Met(db, attempts, i).Some?
    ensures Inv(Met(db, attempts, i).value)
  {
    hide Inv;
  }

  lemma SaleConfirmed(d: Db, p: Request)
    requires Inv(d) && Constraints(d) && p.Purchase? && Admissible(d, p)
    ensures p.key !in d.keyIndex && ProcessPurchase(d, p).reply == OrderReply(p.newOrder) ==>
              p.newOrder in ProcessPurchase(d, p).db.orders
              && ProcessPurchase(d, p).db.orders[p.newOrder].status.Confirmed?
  {
    hide Inv, Constraints, OrderFits, TypeFits, Mintable, WithTickets;
  }
}

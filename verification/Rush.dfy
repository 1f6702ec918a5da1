/** The rush for one ticket type: any number of buyers whose transactions are all open at once
    are all answered, and exactly as many get a ticket as there are. */
module Rush {
  import opened Schema
  import opened Services
  import opened Invariants
  import opened Runs
  import opened Machine
  import opened Interleaving
  import opened Refinement
  import opened Serializability
  import opened Contention
  import opened Overlap
  import opened EitherOrder
  import opened Answers

  /** Buyers of one ticket each, with reservation ids that are unused and all different. */
  predicate Buyers(db: Db, qs: seq<Request>, tt: Id) {
    && (forall i | 0 <= i < |qs| :: OneTicket(qs[i], tt) && qs[i].newReservation !in db.reservations)
    && (forall i, j | 0 <= i < |qs| && 0 <= j < |qs| && i != j :: qs[i].newReservation != qs[j].newReservation)
  }

  function Entries(qs: seq<Request>, rs: seq<Reply>): seq<Entry>
    requires |rs| == |qs|
  {
    seq(|qs|, i requires 0 <= i < |qs| => Entry(qs[i], rs[i]))
  }

  // ---------- one buyer among waiting ones ----------

  predicate NobodyHolds(m: State) {
    forall u | u in m.txns :: m.txns[u].locks == {}
  }

  lemma FreeOfAll(m: State, tid: nat, x: Txn, locks: set<Lock>)
    requires NobodyHolds(m)
    ensures Free(m, tid, locks) && Free(Put(m, tid, x), tid, locks)
  {}

  /** A waiting create can be answered while all the others go on waiting. */
  lemma WaitingEnds(init: Db, m: State, tid: nat)
    requires MachineOk(init, m) && tid in m.txns && m.txns[tid].phase.Waiting? && m.txns[tid].request.Create?
    requires NobodyHolds(m)
    ensures Ends(m, tid)
  {
    hide MachineOk, Inv, Constraints, TxnOk, Leads, Ends, DecideCreate, Free, PlanFree, NobodyHolds;
    OpenIsOk(init, m, tid);
    var x, t := m.txns[tid], m.txns[tid].request.ticketType;
    FreeOfAll(m, tid, x, {TypeRow(t)});
    OneStep(m, Start(tid, []));
    if t !in m.db.types || !m.db.types[t].status.Active? {
      AnsweredEnds(m, m.db, tid, Raised(NotFound));
    } else {
      EventKnown(m.db, t);
      var e := m.db.types[t].event;
      match DecideCreate(x.request, m.db.types[t], m.db.events[e])
      case Refuse(error) => AnsweredEnds(m, m.db, tid, Raised(error));
      case Go(plan, reply) =>
        var x1 := x.(locks := {TypeRow(t)}, events := {e}, phase := Writing(plan, 0, reply));
        var m1 := Put(m, tid, x1);
        LeadsKeeps(init, m, m1);
        NothingHeldIsFree(m, tid, x1);
        FinishAmong(init, m1, tid);
        PutAside(m, tid, x1);
        EndsBefore(m, m1, tid);
    }
  }

  lemma NothingHeldIsFree(m: State, tid: nat, x: Txn)
    requires NobodyHolds(m) && x.phase.Writing?
    ensures PlanFree(Put(m, tid, x), tid)
  {
    hide Needs;
  }

  // ---------- all of them ----------

  /** The first k are answered, the others still wait, nobody holds anything. */
  ghost predicate Remaining(m: State, qs: seq<Request>, first: nat, k: nat) {
    && k <= |qs| && (forall u: nat :: u in m.txns <==> first + k <= u < first + |qs|)
    && forall i | k <= i < |qs| :: WaitsAt(m, first + i, qs[i])
  }

  lemma OneFewer(m: State, d: Db, h: seq<Entry>, qs: seq<Request>, first: nat, k: nat)
    requires Remaining(m, qs, first, k) && k < |qs|
    ensures Remaining(State(d, m.txns - {first + k}, h), qs, first, k + 1)
  {
    var s := State(d, m.txns - {first + k}, h);
    forall i | k + 1 <= i < |qs| ensures WaitsAt(s, first + i, qs[i]) {
      assert WaitsAt(m, first + i, qs[i]);
    }
  }

  lemma WaitingHoldNothing(m: State, qs: seq<Request>, first: nat, k: nat)
    requires Remaining(m, qs, first, k)
    ensures NobodyHolds(m)
  {
    forall u | u in m.txns ensures m.txns[u].locks == {} {
      var i := u - first;
      assert WaitsAt(m, first + i, qs[i]);
    }
  }

  ghost predicate AllServed(m: State, qs: seq<Request>) {
    exists d, rs :: |rs| == |qs| && Leads(m, State(d, map[], m.history + Entries(qs, rs)))
  }

  lemma ServeRest(init: Db, m: State, qs: seq<Request>, first: nat, k: nat)
    requires MachineOk(init, m) && Remaining(m, qs, first, k) && k <= |qs| && forall i | 0 <= i < |qs| :: qs[i].Create?
    ensures AllServed(m, qs[k..])
    decreases |qs| - k
  {
    hide MachineOk, Leads, NobodyHolds, Remaining;
    if k == |qs| {
      NobodyWaits(m, qs, first);
      LeadsItself(m);
      assert m == State(m.db, map[], m.history + Entries([], []));
      assert qs[k..] == [];
    } else {
      WaitingHoldNothing(m, qs, first, k);
      Waits(m, qs, first, k);
      WaitingEnds(init, m, first + k);
      var d, r :| Leads(m, State(d, m.txns - {first + k}, m.history + [Entry(m.txns[first + k].request, r)]));
      var m1 := State(d, m.txns - {first + k}, m.history + [Entry(qs[k], r)]);
      LeadsKeeps(init, m, m1);
      OneFewer(m, d, m1.history, qs, first, k);
      ServeRest(init, m1, qs, first, k + 1);
      var e, rs :| |rs| == |qs[k + 1..]| && Leads(m1, State(e, map[], m1.history + Entries(qs[k + 1..], rs)));
      LeadsTransitive(m, m1, State(e, map[], m1.history + Entries(qs[k + 1..], rs)));
      assert m1.history + Entries(qs[k + 1..], rs) == m.history + Entries(qs[k..], [r] + rs);
    }
  }

  lemma NobodyWaits(m: State, qs: seq<Request>, first: nat)
    requires Remaining(m, qs, first, |qs|)
    ensures m.txns == map[]
  {
    assert forall u :: u !in m.txns;
  }

  lemma Waits(m: State, qs: seq<Request>, first: nat, k: nat)
    requires Remaining(m, qs, first, k) && k < |qs|
    ensures WaitsAt(m, first + k, qs[k])
  {}

  // ---------- who gets a ticket ----------

  /** Nobody draws a taken id, so every buyer gets a real answer. */
  lemma {:induction false} BuyersAreAnswered(db: Db, qs: seq<Request>, rs: seq<Reply>, tt: Id)
    requires |rs| == |qs| && Buyers(db, qs, tt) && Inv(db) && Replay(db, Entries(qs, rs)).Some?
    ensures AnswerCount(Entries(qs, rs), tt) == |qs|
    ensures forall r | r in Replay(db, Entries(qs, rs)).value.reservations ::
              r in db.reservations || exists i :: 0 <= i < |qs| && qs[i].newReservation == r
  {
    hide Inv, Constraints;
    if qs != [] {
      var n := |qs| - 1;
      assert Entries(qs, rs)[..n] == Entries(qs[..n], rs[..n]);
      BuyersAreAnswered(db, qs[..n], rs[..n], tt);
      var d := Replay(db, Entries(qs[..n], rs[..n])).value;
      InvBasics(d);
      assert OneTicket(qs[n], tt);
      HoldAnswers(d, qs[n]);
    }
  }

  /** For any number of buyers of one type: a run in which all their transactions are open at
      once goes on to one in which all are answered, and exactly min(n, available) of them hold
      a ticket. */
  lemma EverybodyAtOnce(init: Db, steps: seq<Action>, qs: seq<Request>, tt: Id)
    requires Inv(init) && Interleave(init, steps).Some? && Interleave(init, steps).value.txns == map[]
    requires var db := Interleave(init, steps).value.db; OpenForSale(db, tt) && Buyers(db, qs, tt)
    ensures Rushed(init, steps, qs, tt)
  {
    hide Inv, MachineOk, Interleave, From, Buyers, AnswerCount, Successes;
    var m := Interleave(init, steps).value;
    Askables(m.db, qs, tt);
    AllAtOnce(init, steps, qs, 0);
    var begins := Begins(qs, 0);
    var s := Interleave(init, steps + begins).value;
    InterleavingKeeps(init, steps + begins);
    EverybodyRemains(m, s, qs);
    ServeRest(init, s, qs, 0, 0);
    assert qs[0..] == qs;
    var d, rs :| |rs| == |qs| && Leads(s, State(d, map[], s.history + Entries(qs, rs)));
    var rest :| From(s, rest) == Some(State(d, map[], s.history + Entries(qs, rs)));
    FromContinues(init, steps + begins, rest);
    Tickets(init, steps, steps + begins + rest, qs, rs, d, tt);
  }

  lemma Askables(db: Db, qs: seq<Request>, tt: Id)
    requires Buyers(db, qs, tt)
    ensures forall i | 0 <= i < |qs| :: Askable(qs[i]) && qs[i].Create?
  {
    forall i | 0 <= i < |qs| ensures Askable(qs[i]) && qs[i].Create? {
      assert OneTicket(qs[i], tt);
    }
  }

  lemma EverybodyRemains(m: State, s: State, qs: seq<Request>)
    requires m.txns == map[] && AllWaiting(s, qs, 0)
    requires forall u | u in s.txns :: u < 0 + |qs|
    ensures Remaining(s, qs, 0, 0)
  {
    forall u ensures u in s.txns <==> 0 <= u < |qs| {
      if 0 <= u < |qs| {
        assert WaitsAt(s, 0 + u, qs[u]);
      }
    }
  }

  lemma Tickets(init: Db, steps: seq<Action>, all: seq<Action>, qs: seq<Request>, rs: seq<Reply>, d: Db, tt: Id)
    requires Inv(init) && Interleave(init, steps).Some? && |rs| == |qs|
    requires Interleave(init, all)
          == Some(State(d, map[], Interleave(init, steps).value.history + Entries(qs, rs)))
    requires var db := Interleave(init, steps).value.db; OpenForSale(db, tt) && Buyers(db, qs, tt)
    ensures var db := Interleave(init, steps).value.db;
            && tt in d.types && Successes(Entries(qs, rs), tt) == Min(|qs|, Available(db.types[tt]))
            && d.types[tt] == db.types[tt].(held := db.types[tt].held + Min(|qs|, Available(db.types[tt])))
  {
    hide Inv, MachineOk, Interleave, Buyers, AnswerCount, Successes, Replay, Evolves;
    var m := Interleave(init, steps).value;
    Serializable(init, steps);
    Serializable(init, all);
    ReplaySplit(init, m.history + Entries(qs, rs), |m.history|);
    assert (m.history + Entries(qs, rs))[..|m.history|] == m.history;
    assert (m.history + Entries(qs, rs))[|m.history|..] == Entries(qs, rs);
    BuyersAreAnswered(m.db, qs, rs, tt);
    EvolvesReflexive(d);
    AllBuyers(m.db, qs, rs, tt, d);
    SerialBuyers(m.db, Entries(qs, rs), tt, d);
  }

  lemma AllBuyers(db: Db, qs: seq<Request>, rs: seq<Reply>, tt: Id, last: Db)
    requires |rs| == |qs| && Buyers(db, qs, tt)
    ensures forall e | e in Entries(qs, rs) :: BuyerOrElsewhere(last, e.request, tt)
  {
    hide Elsewhere;
  }

  /** The run can be continued until all buyers are open, and on until all are answered. */
  ghost predicate Rushed(init: Db, steps: seq<Action>, qs: seq<Request>, tt: Id)
    requires Interleave(init, steps).Some? && tt in Interleave(init, steps).value.db.types
  {
    var m := Interleave(init, steps).value;
    var won := Min(|qs|, Available(m.db.types[tt]));
    exists rest, rs ::
      && |rs| == |qs|
      && Interleave(init, steps + Begins(qs, 0)).Some?
      && AllWaiting(Interleave(init, steps + Begins(qs, 0)).value, qs, 0)
      && EndedWith(Interleave(init, steps + Begins(qs, 0) + rest), m.history + Entries(qs, rs))
      && Successes(Entries(qs, rs), tt) == won
      && var d := Interleave(init, steps + Begins(qs, 0) + rest).value.db;
         tt in d.types && d.types[tt] == m.db.types[tt].(held := m.db.types[tt].held + won)
  }
}

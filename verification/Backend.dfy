/** The process as code: repository methods over mutable tables, one per SQL statement, the
    object store, the counters, and the other operations that run in between. Each method is
    one step of the operation it is called for; the ghost fields follow that operation through
    the transition system. */
module Backend {
  import opened Domain
  import opened Sql
  import opened Integrity
  import opened Machine
  import opened Invariant
  import opened Answers
  import opened Deletion

  /** `v` is reached from `w` by some sequence of events. */
  ghost predicate Reaches(w: World, v: World) {
    exists es :: v == Run(w, es)
  }

  lemma ReachesItself(w: World)
    ensures Reaches(w, w)
  {
    assert w == Run(w, []);
  }

  lemma ReachesRun(w: World, v: World, es: seq<Event>)
    requires Reaches(w, v)
    ensures Reaches(w, Run(v, es))
  {
    var before :| v == Run(w, before);
    RunConcat(w, before, es);
  }

  lemma {:induction false} ClockRuns(w: World, es: seq<Event>)
    ensures w.now <= Run(w, es).now
  {
    if es != [] {
      ClockRuns(w, es[..|es| - 1]);
    }
  }

  /** What is still there of a state reached from `w`, and what is known of it. */
  lemma ReachedRows(w: World, v: World)
    requires Inv(w) && Reaches(w, v)
    ensures w.now <= v.now
    ensures forall i | i in v.db.pickups && i < w.nextId ::
              i in w.db.pickups && PickupEvolves(w.db.pickups[i], v.db.pickups[i])
    ensures forall i | i in v.db.payments && i in w.db.spent ::
              i in w.db.payments && PaymentEvolves(w.db.payments[i], v.db.payments[i])
    ensures forall i | i in w.db.payments :: i in w.db.spent
  {
    var es :| v == Run(w, es);
    ClockRuns(w, es);
    RunInv(w, es);
  }

  lemma RunOne(w: World, e: Event)
    ensures Run(w, [e]) == Next(w, e)
  {
  }

  /** The real part of a step: everything but the program points and the ledgers. */
  function RealStep(w: World, o: OpId, ok: bool): World
    requires o in w.ops
  {
    var op := w.ops[o];
    var (w1, a) := Act(w, CallOf(op, w.nextId), ok);
    w1.(counters := Count(w1.counters, op, a), nextId := w.nextId + 1,
        ops := w.ops, leaked := w.leaked, erased := w.erased)
  }

  lemma RealStepFollowed(w: World, o: OpId, ok: bool)
    requires o in w.ops
    ensures var v := Next(w, Step(o, ok));
      v == RealStep(w, o, ok).(ops := v.ops, leaked := v.leaked, erased := v.erased)
  {
  }

  lemma RealDbStep(w: World, o: OpId, ok: bool, a: Write)
    requires o in w.ops && CallOf(w.ops[o], w.nextId) == Db(a)
    ensures RealStep(w, o, ok) == w.(db := if ok then Apply(w.db, w.now, a).0 else w.db, nextId := w.nextId + 1)
  {
  }

  /** The call reads the tables and no counter depends on it. */
  predicate PlainRead(op: Op) {
    op.CreateChecking? || op.ScheduleReading? || op.CompleteReading? || op.CancelReading? || op.PayReading?
    || op.ConfirmReading?
  }

  lemma RealReadStep(w: World, o: OpId, ok: bool)
    requires o in w.ops && PlainRead(w.ops[o])
    ensures RealStep(w, o, ok) == w.(nextId := w.nextId + 1)
  {
  }

  lemma StepReaches(w0: World, w: World, e: Event)
    requires Inv(w) && Reaches(w0, w)
    ensures Inv(Next(w, e)) && Reaches(w0, Next(w, e))
  {
    NextInv(w, e);
    RunOne(w, e);
    ReachesRun(w0, w, [e]);
  }

  lemma ConfirmOneRow(t: Tables, id: Id, proof: Key, paidAt: Time, now: Time)
    ensures var u := Apply(t, now, Single(Statement.ConfirmPayment(id, proof, paidAt))).0;
      u.households == t.households && u.pickups == t.pickups
      && u.payments == if id in t.payments && t.payments[id].status == PaymentPending then
                         t.payments[id := PaidRow(t.payments[id], proof, paidAt, now)]
                       else t.payments
  {
  }

  function PaidRow(p: Payment, proof: Key, paidAt: Time, now: Time): Payment {
    p.(status := PaymentPaid, proof := Some(proof), paymentDate := Some(paidAt), updatedAt := now)
  }

  lemma CompleteRows(t: Tables, now: Time, a: Write)
    requires a.CompleteTx?
    ensures var u := Apply(t, now, a).0;
      if a.pickup in t.pickups && t.pickups[a.pickup].status == Scheduled
         && PaymentViolation(t, a.household, a.pickup, a.amount).None?
      then
        && u == t.(pickups := t.pickups[a.pickup := t.pickups[a.pickup].(status := Completed, updatedAt := a.stamp)],
                   payments := t.payments[a.payment :=
                     NewPayment(a.payment, a.household, a.pickup, a.amount, a.stamp)],
                   spent := t.spent + {a.payment})
        && HasPaymentFor(u, a.pickup)
      else u == t
  {
    CompleteTxCases(t, now, a);
    var (u, r) := Apply(t, now, a);
    if r == Rows(1) {
      assert u.payments[a.payment].waste == a.pickup;
    }
  }

  lemma RealFindStep(w: World, o: OpId, ok: bool)
    requires o in w.ops && w.ops[o].CycleFinding?
    ensures RealStep(w, o, ok) == w.(nextId := w.nextId + 1,
      counters := if ok then Add(w.counters, ExpiredFound, |ExpiredOrganic(w.db, w.ops[o].before)|) else w.counters)
  {
  }

  lemma DeleteParts(w: World, id: Id)
    ensures var v := Next(w, RemoveHousehold(id));
      && v == w.(db := Exec(w.db, w.now, Statement.DeleteHousehold(id)).0, nextId := Max(w.nextId, id) + 1,
                 erased := v.erased)
      && (id !in w.db.households ==> v.db == w.db)
  {
  }

  lemma RowsHaveTheirIds(w: World)
    requires Inv(w)
    ensures forall i | i in w.db.pickups :: w.db.pickups[i].id == i
  {
  }

  /** The rows after UPDATE ... SET status = 'canceled' WHERE id = ANY(ids). */
  function CanceledRows(rows: map<Id, Pickup>, ids: set<Id>, now: Time): map<Id, Pickup> {
    map i | i in rows ::
      if i in ids && (rows[i].status == Pending || rows[i].status == Scheduled) then
        rows[i].(status := Canceled, updatedAt := now)
      else rows[i]
  }

  lemma BulkRows(t: Tables, ids: set<Id>, now: Time)
    ensures Apply(t, now, Single(CancelStatement(ids))).0 == t.(pickups := CanceledRows(t.pickups, ids, now))
  {
  }

  function ToSet(ids: seq<Id>): set<Id> {
    set i | i in ids
  }

  function IdsOf(rows: seq<Pickup>): set<Id> {
    set p | p in rows :: p.id
  }

  lemma IdsAppend(rows: seq<Pickup>, p: Pickup)
    ensures IdsOf(rows + [p]) == IdsOf(rows) + {p.id}
  {
  }

  /** The selected rows, one for each id, in no particular order. */
  method RowsOf(table: map<Id, Pickup>, ids: set<Id>) returns (rows: seq<Pickup>)
    requires ids <= table.Keys && forall i | i in table :: table[i].id == i
    ensures IdsOf(rows) == ids && |rows| == |ids|
    ensures forall p | p in rows :: p.id in table && p == table[p.id]
  {
    rows := [];
    var todo := ids;
    while todo != {}
      invariant todo <= ids && IdsOf(rows) == ids - todo && |rows| == |ids| - |todo|
      invariant forall p | p in rows :: p.id in table && p == table[p.id]
      decreases todo
    {
      var i :| i in todo;
      IdsAppend(rows, table[i]);
      assert ids - (todo - {i}) == (ids - todo) + {i};
      rows := rows + [table[i]];
      todo := todo - {i};
    }
  }

  class Server {
    var households: map<Id, Household>
    var pickups: map<Id, Pickup>
    var payments: map<Id, Payment>
    var spent: set<Id>               // history: ids of all payments ever inserted
    var objects: set<Key>
    var counters: Counters
    var clock: Time
    var nextId: Id                   // the next uuid
    ghost var ops: map<OpId, Op>
    ghost var leaked: set<Key>
    ghost var erased: set<Key>

    ghost function Db(): Tables
      reads this
    {
      Tables(households, pickups, payments, spent)
    }

    ghost function Now(): World
      reads this
    {
      World(clock, nextId, Db(), objects, ops, counters, leaked, erased)
    }

    /** The process is in a good state that was reached from `w0`. */
    ghost predicate Since(w0: World)
      reads this
    {
      Inv(Now()) && Reaches(w0, Now())
    }

    /** The call operation `o` has to make next. */
    ghost predicate Due(o: OpId, c: Call)
      reads this
    {
      o in ops && CallOf(ops[o], nextId) == c
    }

    // ---- what runs in between ----

    /** Any number of events of other operations: other requests, the worker, household
        deletions, the passing of time. Callers may rely on the contract alone, which allows
        every such run (in all of them the clock advances, `ClockRuns`); doing nothing is one of
        them. */
    method Interfere(ghost o: OpId, ghost w0: World)
      requires Since(w0) && o in ops
      modifies this
      ensures Since(w0) && o in ops && ops[o] == old(ops[o])
      ensures exists es :: Silent(es, o) && Now() == Run(old(Now()), es)
      ensures old(clock) <= clock
    {
      assert Silent([], o) && Now() == Run(Now(), []);
    }

    // ---- ghost bookkeeping ----

    /** A request arrives, or the worker begins a cycle. Uuids named in the request are never
        generated later, and a cycle is counted when it begins. */
    method Enter(ghost o: OpId, r: Request, ghost w0: World)
      requires Since(w0) && o !in ops
      modifies this
      ensures Since(w0) && Now() == Next(old(Now()), Start(o, r))
    {
      hide Inv, Run;
      ghost var before := Now();
      nextId := Max(nextId, Mentioned(r));
      if r.RunCycle? {
        counters := Add(counters, WorkerCycles, 1);
      }
      ops := ops[o := Begin(before, r)];
      StepReaches(w0, before, Start(o, r));
    }

    /** The real fields have made the step `ok` of operation `o`; let the ghost fields follow. */
    ghost method Follow(o: OpId, before: World, ok: bool, w0: World)
      requires o in before.ops && Inv(before) && Reaches(w0, before)
      requires Now() == RealStep(before, o, ok)
      modifies `ops, `leaked, `erased
      ensures Since(w0) && Now() == Next(before, Step(o, ok))
    {
      hide Inv, Run;
      ghost var after := Next(before, Step(o, ok));
      ops, leaked, erased := after.ops, after.leaked, after.erased;
      RealStepFollowed(before, o, ok);
      StepReaches(w0, before, Step(o, ok));
    }

    /** The same for a statement that writes, and for one that only reads. */
    ghost method FollowWrite(o: OpId, before: World, ok: bool, a: Write, w0: World)
      requires o in before.ops && Inv(before) && Reaches(w0, before)
      requires CallOf(before.ops[o], before.nextId) == Machine.Db(a)
      requires Now() == before.(db := if ok then Apply(before.db, before.now, a).0 else before.db,
                                nextId := before.nextId + 1)
      modifies `ops, `leaked, `erased
      ensures Since(w0) && Now() == Next(before, Step(o, ok))
    {
      RealDbStep(before, o, ok, a);
      Follow(o, before, ok, w0);
    }

    ghost method FollowRead(o: OpId, before: World, ok: bool, w0: World)
      requires o in before.ops && Inv(before) && Reaches(w0, before) && PlainRead(before.ops[o])
      requires Now() == before.(nextId := before.nextId + 1)
      modifies `ops, `leaked, `erased
      ensures Since(w0) && Now() == Next(before, Step(o, ok))
    {
      RealReadStep(before, o, ok);
      Follow(o, before, ok, w0);
    }

    // ---- reads ----

    /** SELECT EXISTS(... payments WHERE household_id = $1 AND status = 'pending'). */
    method HasPendingPaymentForHousehold(ghost o: OpId, household: Id, ghost w0: World) returns (r: Result<bool>)
      requires Since(w0) && Due(o, ReadPending(household))
      modifies this
      ensures Since(w0) && Now() == Next(old(Now()), Step(o, r.Ok?))
      ensures r == Err(Internal) || r == Ok(HasPendingPayment(old(Db()), household))
    {
      hide Inv, Next, Run;
      ghost var before := Now();
      var ok: bool := *;
      if ok {
        r := Ok(exists i | i in payments :: payments[i].household == household && payments[i].status == PaymentPending);
      } else {
        r := Err(Internal);
      }
      nextId := nextId + 1;
      FollowRead(o, before, ok, w0);
    }

    /** SELECT * FROM waste_pickups WHERE id = $1. */
    method FindPickupById(ghost o: OpId, id: Id, ghost w0: World) returns (r: Result<Pickup>)
      requires Since(w0) && Due(o, ReadPickup(id))
      modifies this
      ensures Since(w0) && Now() == Next(old(Now()), Step(o, r != Err(Internal)))
      ensures r == Err(Internal) || r == (if id in old(pickups) then Ok(old(pickups)[id]) else Err(NotFound))
    {
      hide Inv, Next, Run;
      ghost var before := Now();
      var ok: bool := *;
      r := if !ok then Err(Internal) else if id in pickups then Ok(pickups[id]) else Err(NotFound);
      nextId := nextId + 1;
      FollowRead(o, before, ok, w0);
    }

    /** SELECT * FROM payments WHERE id = $1. */
    method FindPaymentById(ghost o: OpId, id: Id, ghost w0: World) returns (r: Result<Payment>)
      requires Since(w0) && Due(o, ReadPayment(id))
      modifies this
      ensures Since(w0) && Now() == Next(old(Now()), Step(o, r != Err(Internal)))
      ensures r == Err(Internal) || r == (if id in old(payments) then Ok(old(payments)[id]) else Err(NotFound))
    {
      hide Inv, Next, Run;
      ghost var before := Now();
      var ok: bool := *;
      r := if !ok then Err(Internal) else if id in payments then Ok(payments[id]) else Err(NotFound);
      nextId := nextId + 1;
      FollowRead(o, before, ok, w0);
    }

    // ---- writes ----

    /** UPDATE ... SET status = 'scheduled', pickup_date = $2 WHERE id = $1 AND status = 'pending'. */
    method SchedulePickup(ghost o: OpId, id: Id, date: Time, ghost w0: World) returns (err: Option<Error>)
      requires Since(w0) && Due(o, Machine.Db(Single(ScheduleStatement(id, date))))
      modifies this
      ensures Since(w0) && Now() == Next(old(Now()), Step(o, err != Some(Internal)))
      ensures var admitted := id in old(pickups) && old(pickups)[id].status == Pending;
        && (err == Some(Internal) || err == if admitted then None else Some(Conflict))
        && pickups == if err.None? then
                        old(pickups)[id := old(pickups)[id].(
                          status := Scheduled, pickupDate := Some(date), updatedAt := old(clock))]
                      else old(pickups)
    {
      hide Inv, Next, Run;
      ghost var before := Now();
      UpdateOneRow(Db(), id, {Pending}, Scheduled, Some(date), clock);
      var ok: bool := *;
      if !ok {
        err := Some(Internal);
      } else if id in pickups && pickups[id].status == Pending {
        pickups := pickups[id := pickups[id].(status := Scheduled, pickupDate := Some(date), updatedAt := clock)];
        err := None;
      } else {
        err := Some(Conflict);
      }
      nextId := nextId + 1;
      FollowWrite(o, before, ok, Single(ScheduleStatement(id, date)), w0);
    }

    /** UPDATE ... SET status = 'canceled' WHERE id = $1 AND status IN ('pending', 'scheduled'). */
    method CancelIfCancellable(ghost o: OpId, id: Id, ghost w0: World) returns (r: Result<bool>)
      requires Since(w0) && Due(o, Machine.Db(Single(CancelStatement({id}))))
      modifies this
      ensures Since(w0) && Now() == Next(old(Now()), Step(o, r.Ok?))
      ensures r == Err(Internal) || r == Ok(id in old(pickups) && old(pickups)[id].status in {Pending, Scheduled})
      ensures pickups == if r == Ok(true) then
                           old(pickups)[id := old(pickups)[id].(status := Canceled, updatedAt := old(clock))]
                         else old(pickups)
    {
      hide Inv, Next, Run;
      ghost var before := Now();
      UpdateOneRow(Db(), id, {Pending, Scheduled}, Canceled, None, clock);
      var ok: bool := *;
      if !ok {
        r := Err(Internal);
      } else if id in pickups && (pickups[id].status == Pending || pickups[id].status == Scheduled) {
        pickups := pickups[id := pickups[id].(status := Canceled, updatedAt := clock)];
        r := Ok(true);
      } else {
        r := Ok(false);
      }
      nextId := nextId + 1;
      FollowWrite(o, before, ok, Single(CancelStatement({id})), w0);
    }

    /** INSERT INTO waste_pickups ... RETURNING *. */
    method CreatePickup(ghost o: OpId, household: Id, kind: WasteType, safetyCheck: bool, ghost w0: World)
      returns (r: Result<Pickup>)
      requires Since(w0) && Due(o, Machine.Db(Single(InsertPickup(nextId, household, kind, safetyCheck))))
      modifies this
      ensures Since(w0) && Now() == Next(old(Now()), Step(o, r != Err(Internal)))
      ensures r == Err(Internal)
           || r == if household in old(households) then
                     Ok(Pickup(old(nextId), household, kind, Pending, None, safetyCheck, old(clock), old(clock)))
                   else Err(NotFound)
      ensures pickups == if r.Ok? then old(pickups)[old(nextId) := r.value] else old(pickups)
    {
      hide Inv, Next, Run;
      ghost var before := Now();
      var ok: bool := *;
      if !ok {
        r := Err(Internal);
      } else if household !in households {
        r := Err(PickupCreateError(ForeignKey));
      } else {
        r := Ok(NewPickup(nextId, household, kind, safetyCheck, clock));
        pickups := pickups[nextId := r.value];
      }
      nextId := nextId + 1;
      FollowWrite(o, before, ok, Single(InsertPickup(before.nextId, household, kind, safetyCheck)), w0);
    }

    /** INSERT INTO payments ... RETURNING *, with the constraint that fails first. */
    method CreatePayment(ghost o: OpId, household: Id, waste: Id, amount: Money, ghost w0: World)
      returns (r: Result<Payment>)
      requires Since(w0) && Due(o, Machine.Db(Single(InsertPayment(nextId, household, waste, amount))))
      modifies this
      ensures Since(w0) && Now() == Next(old(Now()), Step(o, r != Err(Internal)))
      ensures var t := old(Db());
        r == Err(Internal)
        || r == if amount <= 0 then Err(Validation)
                else if HasPaymentFor(t, waste) || HasPendingPayment(t, household) then Err(Conflict)
                else if household !in t.households || waste !in t.pickups then Err(NotFound)
                else Ok(Payment(old(nextId), household, waste, amount, None, PaymentPending, None,
                                old(clock), old(clock)))
      ensures payments == if r.Ok? then old(payments)[old(nextId) := r.value] else old(payments)
    {
      hide Inv, Next, Run;
      ghost var before := Now();
      var ok: bool := *;
      if !ok {
        r := Err(Internal);
      } else {
        var bad := PaymentViolation(Tables(households, pickups, payments, spent), household, waste, amount);
        if bad.Some? {
          r := Err(PaymentCreateError(bad.value));
        } else {
          r := Ok(NewPayment(nextId, household, waste, amount, clock));
          payments := payments[nextId := r.value];
          spent := spent + {nextId};
        }
      }
      nextId := nextId + 1;
      FollowWrite(o, before, ok, Single(InsertPayment(before.nextId, household, waste, amount)), w0);
    }

    /** Status update, payment insert, commit: all or nothing. */
    method ExecComplete(id: Id, payment: Id, household: Id, amount: Money, stamp: Time) returns (err: Option<Error>)
      modifies `pickups, `payments, `spent
      ensures var t := old(Db());
        err == Some(Internal)
        || err == if !(id in t.pickups && t.pickups[id].status == Scheduled) then Some(Conflict)
                  else if amount <= 0 then Some(Validation)
                  else if HasPaymentFor(t, id) || HasPendingPayment(t, household) then Some(Conflict)
                  else if household !in t.households then Some(NotFound)
                  else None
      ensures err == None || Db() == old(Db())
      ensures err == None ==>
        && id in old(pickups)
        && pickups == old(pickups)[id := old(pickups)[id].(status := Completed, updatedAt := stamp)]
        && payments == old(payments)[payment :=
             Payment(payment, household, id, amount, None, PaymentPending, None, stamp, stamp)]
      ensures err != Some(Internal) ==>
                Db() == Apply(old(Db()), clock, CompleteTx(id, payment, household, amount, stamp)).0
    {
      CompleteRows(Db(), clock, CompleteTx(id, payment, household, amount, stamp));
      var ok: bool := *;
      if !ok {
        return Some(Internal);
      }
      if !(id in pickups && pickups[id].status == Scheduled) {
        return Some(Conflict);
      }
      var bad := PaymentViolation(Tables(households, pickups, payments, spent), household, id, amount);
      if bad.Some? {
        return Some(PaymentCreateError(bad.value));
      }
      pickups := pickups[id := pickups[id].(status := Completed, updatedAt := stamp)];
      payments := payments[payment := NewPayment(payment, household, id, amount, stamp)];
      spent := spent + {payment};
      return None;
    }

    /** The transaction of Complete as one step. */
    method CompleteTransaction(
      ghost o: OpId, id: Id, payment: Id, household: Id, amount: Money, stamp: Time, ghost w0: World)
      returns (err: Option<Error>)
      requires Since(w0) && Due(o, Machine.Db(CompleteTx(id, payment, household, amount, stamp)))
      modifies this
      ensures Since(w0) && Now() == Next(old(Now()), Step(o, err != Some(Internal)))
      ensures var t := old(Db());
        err == Some(Internal)
        || err == if !(id in t.pickups && t.pickups[id].status == Scheduled) then Some(Conflict)
                  else if amount <= 0 then Some(Validation)
                  else if HasPaymentFor(t, id) || HasPendingPayment(t, household) then Some(Conflict)
                  else if household !in t.households then Some(NotFound)
                  else None
      ensures err == None || Db() == old(Db())
      ensures err == None ==>
        && id in old(pickups)
        && pickups == old(pickups)[id := old(pickups)[id].(status := Completed, updatedAt := stamp)]
        && payments == old(payments)[payment :=
             Payment(payment, household, id, amount, None, PaymentPending, None, stamp, stamp)]
    {
      hide Inv, Next, Run;
      ghost var before := Now();
      err := ExecComplete(id, payment, household, amount, stamp);
      nextId := nextId + 1;
      FollowWrite(o, before, err != Some(Internal), CompleteTx(id, payment, household, amount, stamp), w0);
    }

    /** UPDATE payments SET status = 'paid' ... WHERE id = $1 AND status = 'pending'. */
    method ConfirmPayment(ghost o: OpId, id: Id, proof: Key, paidAt: Time, ghost w0: World) returns (err: Option<Error>)
      requires Since(w0) && Due(o, Machine.Db(Single(Statement.ConfirmPayment(id, proof, paidAt))))
      modifies this
      ensures Since(w0) && Now() == Next(old(Now()), Step(o, err != Some(Internal)))
      ensures var pending := id in old(payments) && old(payments)[id].status == PaymentPending;
        && (err == Some(Internal) || err == if pending then None else Some(Conflict))
        && payments == if err.None? then old(payments)[id := PaidRow(old(payments)[id], proof, paidAt, old(clock))]
                       else old(payments)
    {
      hide Inv, Next, Run;
      ghost var before := Now();
      ConfirmOneRow(Db(), id, proof, paidAt, clock);
      var ok: bool := *;
      if !ok {
        err := Some(Internal);
      } else if id in payments && payments[id].status == PaymentPending {
        payments := payments[id := PaidRow(payments[id], proof, paidAt, clock)];
        err := None;
      } else {
        err := Some(Conflict);
      }
      nextId := nextId + 1;
      FollowWrite(o, before, ok, Single(Statement.ConfirmPayment(id, proof, paidAt)), w0);
    }

    // ---- households ----

    /** INSERT INTO households ... RETURNING *; a violated CHECK is an internal error here. */
    method CreateHousehold(owner: string, address: string, ghost w0: World) returns (r: Result<Household>)
      requires Since(w0)
      modifies this
      ensures Since(w0)
      ensures match r
              case Err(e) => e == Internal && Now() == old(Now())
              case Ok(h) =>
                && h == Household(old(nextId), owner, address, old(clock)) && owner != "" && address != ""
                && households == old(households)[h.id := h]
                && Now() == Next(old(Now()), AddHousehold(owner, address))
    {
      hide Inv, Run;
      ghost var before := Now();
      var ok: bool := *;
      if !ok || owner == "" || address == "" {
        return Err(Internal);
      }
      var h := Household(nextId, owner, address, clock);
      households := households[nextId := h];
      nextId := nextId + 1;
      erased := Next(before, AddHousehold(owner, address)).erased;
      StepReaches(w0, before, AddHousehold(owner, address));
      return Ok(h);
    }

    /** DELETE FROM households WHERE id = $1: the foreign keys take the household's payments, its
        pickups and their payments along. */
    method ExecDelete(id: Id)
      requires id in households
      modifies `households, `pickups, `payments
      ensures Db() == Exec(old(Db()), clock, Statement.DeleteHousehold(id)).0
    {
      households := households - {id};
      payments := map i | i in payments && payments[i].household != id :: payments[i];
      payments := map i | i in payments
                          && !(payments[i].waste in pickups && pickups[payments[i].waste].household == id)
                    :: payments[i];
      pickups := map i | i in pickups && pickups[i].household != id :: pickups[i];
      assert pickups == Cascade(old(Db()), id).pickups;
      assert payments == Cascade(old(Db()), id).payments;
    }

    method DeleteHousehold(id: Id, ghost w0: World) returns (err: Option<Error>)
      requires Since(w0)
      modifies this
      ensures Since(w0)
      ensures err == Some(Internal) || err == if id in old(households) then None else Some(NotFound)
      ensures Now() == if err == Some(Internal) then old(Now()) else Next(old(Now()), RemoveHousehold(id))
      ensures err.Some? ==> Db() == old(Db())
      ensures err.None? ==>
        && households == old(households) - {id}
        && (forall i :: i in pickups <==> i in old(pickups) && old(pickups)[i].household != id)
        && (forall i :: i in payments <==> i in old(payments) && old(payments)[i].household != id)
    {
      hide Inv, Run, Next, Exec;
      ghost var before := Now();
      var ok: bool := *;
      if !ok {
        return Some(Internal);
      }
      DeleteParts(before, id);
      DeleteRemovesExactly(before, id);
      if id in households {
        ExecDelete(id);
        err := None;
      } else {
        err := Some(NotFound);
      }
      nextId := Max(nextId, id) + 1;
      erased := Next(before, RemoveHousehold(id)).erased;
      StepReaches(w0, before, RemoveHousehold(id));
    }

    // ---- the worker's statements ----

    /** SELECT * ... WHERE type = 'organic' AND status = 'pending' AND created_at < $1, with the
        count of rows found. */
    method SelectExpired(before: Time) returns (r: Result<seq<Pickup>>)
      requires forall i | i in pickups :: pickups[i].id == i
      modifies `counters
      ensures match r
              case Err(e) => e == Internal && counters == old(counters)
              case Ok(rows) =>
                && IdsOf(rows) == ExpiredOrganic(Db(), before) && |rows| == |IdsOf(rows)|
                && (forall i :: i in IdsOf(rows) <==>
                      && i in pickups && pickups[i].kind == Organic && pickups[i].status == Pending
                      && pickups[i].createdAt < before)
                && counters == Add(old(counters), ExpiredFound, |rows|)
                && forall p | p in rows :: p.id in pickups && p == pickups[p.id]
    {
      var ok: bool := *;
      if !ok {
        return Err(Internal);
      }
      var rows := RowsOf(pickups, ExpiredOrganic(Tables(households, pickups, payments, spent), before));
      counters := Add(counters, ExpiredFound, |rows|);
      return Ok(rows);
    }

    /** The same as one step of a worker cycle. */
    method FindExpiredOrganic(ghost o: OpId, before: Time, ghost w0: World) returns (r: Result<seq<Pickup>>)
      requires Since(w0) && Due(o, ReadExpired(before)) && ops[o].CycleFinding?
      modifies this
      ensures Since(w0) && Now() == Next(old(Now()), Step(o, r.Ok?))
      ensures r == Err(Internal)
           || (r.Ok? && IdsOf(r.value) == ExpiredOrganic(old(Db()), before) && |r.value| == |IdsOf(r.value)|)
      ensures r.Ok? ==> forall p | p in r.value :: p.id in old(pickups) && p == old(pickups)[p.id]
    {
      hide Inv, Next, Run, RealStep, IdsOf, ExpiredOrganic;
      ghost var w := Now();
      RowsHaveTheirIds(w);
      RealFindStep(w, o, true);
      RealFindStep(w, o, false);
      r := SelectExpired(before);
      nextId := nextId + 1;
      Follow(o, w, r.Ok?, w0);
    }

    /** UPDATE ... SET status = 'canceled' WHERE id = ANY($1) AND status IN ('pending', 'scheduled'). */
    method BulkCancel(ghost o: OpId, ids: seq<Id>, ghost w0: World) returns (err: Option<Error>)
      requires Since(w0) && Due(o, Machine.Db(Single(CancelStatement(ToSet(ids)))))
      modifies this
      ensures Since(w0) && Now() == Next(old(Now()), Step(o, err.None?))
      ensures err == None || err == Some(Internal)
      ensures pickups.Keys == old(pickups).Keys
      ensures forall i | i in pickups ::
                pickups[i] == if err.None? && i in ids && old(pickups)[i].status in {Pending, Scheduled} then
                                old(pickups)[i].(status := Canceled, updatedAt := old(clock))
                              else old(pickups)[i]
    {
      hide Inv, Next, Run;
      ghost var before := Now();
      BulkRows(before.db, ToSet(ids), clock);
      var ok: bool := *;
      if ok {
        pickups := CanceledRows(pickups, ToSet(ids), clock);
        err := None;
      } else {
        err := Some(Internal);
      }
      nextId := nextId + 1;
      FollowWrite(o, before, ok, Single(CancelStatement(ToSet(ids))), w0);
    }

    // ---- object store ----

    /** Upload: a failed upload stores nothing. */
    method Upload(ghost o: OpId, key: Key, ghost w0: World) returns (err: Option<Error>)
      requires Since(w0) && Due(o, PutObject(key))
      modifies this
      ensures Since(w0) && Now() == Next(old(Now()), Step(o, err.None?))
      ensures err == None || err == Some(Internal)
      ensures objects == if err.None? then old(objects) + {key} else old(objects)
    {
      hide Inv, Next, Run;
      ghost var before := Now();
      var ok: bool := *;
      if ok {
        objects := objects + {key};
      }
      err := if ok then None else Some(Internal);
      nextId := nextId + 1;
      Follow(o, before, ok, w0);
    }

    method Delete(ghost o: OpId, key: Key, ghost w0: World) returns (err: Option<Error>)
      requires Since(w0) && Due(o, DeleteObject(key))
      modifies this
      ensures Since(w0) && Now() == Next(old(Now()), Step(o, err.None?))
      ensures err == None || err == Some(Internal)
      ensures objects == if err.None? then old(objects) - {key} else old(objects)
    {
      hide Inv, Next, Run;
      ghost var before := Now();
      var ok: bool := *;
      if ok {
        objects := objects - {key};
      }
      err := if ok then None else Some(Internal);
      nextId := nextId + 1;
      Follow(o, before, ok, w0);
    }

    // ---- local steps ----

    /** time.Now(), or a new uuid, at a point between two calls. */
    method LocalStep(ghost o: OpId, ghost w0: World) returns (now: Time, uuid: Id)
      requires Since(w0) && Due(o, Nothing) && Count(counters, ops[o], Done) == counters
      modifies this
      ensures Since(w0) && Now() == Next(old(Now()), Step(o, true))
      ensures now == old(clock) && uuid == old(nextId)
    {
      hide Inv, Next, Run;
      ghost var before := Now();
      now, uuid := clock, nextId;
      nextId := nextId + 1;
      Follow(o, before, true, w0);
    }

    /** Increment Prometheus counters. */
    method Increment(ghost o: OpId, c: Counters, ghost w0: World)
      requires Since(w0) && Due(o, Nothing) && c == Count(counters, ops[o], Done)
      modifies this
      ensures Since(w0) && Now() == Next(old(Now()), Step(o, true))
      ensures counters == c
    {
      hide Inv, Next, Run;
      ghost var before := Now();
      counters := c;
      nextId := nextId + 1;
      Follow(o, before, true, w0);
    }
  }
}

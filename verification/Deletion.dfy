/** Deleting a household while operations on it are in flight. */
module Deletion {
  import opened Domain
  import opened Sql
  import opened Integrity
  import opened Machine
  import opened Invariant

  /** `h` was a household id, or was mentioned as one, and there is no such household now. */
  ghost predicate Gone(w: World, h: Id) {
    h < w.nextId && h !in w.db.households
  }

  /** A deleted household stays deleted, and no operation, however long it was in flight,
      brings back a pickup or a payment of it. */
  lemma GoneForGood(w: World, es: seq<Event>, h: Id)
    requires Inv(w) && Gone(w, h)
    ensures var v := Run(w, es);
      && Gone(v, h)
      && (forall i | i in v.db.pickups :: v.db.pickups[i].household != h)
      && (forall i | i in v.db.payments :: v.db.payments[i].household != h)
  {
    RunInv(w, es);
  }

  /** The deletion itself removes the household with everything that refers to it, and
      nothing else. */
  lemma DeleteRemovesExactly(w: World, h: Id)
    requires Inv(w)
    ensures var u := Next(w, RemoveHousehold(h)).db;
      && u.households == w.db.households - {h}
      && (forall i :: i in u.pickups <==> i in w.db.pickups && w.db.pickups[i].household != h)
      && (forall i :: i in u.payments <==> i in w.db.payments && w.db.payments[i].household != h)
      && (forall i | i in u.pickups :: u.pickups[i] == w.db.pickups[i])
      && (forall i | i in u.payments :: u.payments[i] == w.db.payments[i])
  {
    CascadeExact(w.db, h);
  }

  lemma CascadeExact(t: Tables, h: Id)
    requires Linked(t)
    ensures var u := if h in t.households then Cascade(t, h) else t;
      && u.households == t.households - {h}
      && (forall i :: i in u.pickups <==> i in t.pickups && t.pickups[i].household != h)
      && (forall i :: i in u.payments <==> i in t.payments && t.payments[i].household != h)
      && (forall i | i in u.pickups :: u.pickups[i] == t.pickups[i])
      && (forall i | i in u.payments :: u.payments[i] == t.payments[i])
  {
  }

  /** A cancel or a worker cycle knows ids only. Once the household of a pickup is deleted, the
      cancel of that pickup affects no row, and a cycle that has listed it skips it. */
  lemma OrphanCancelsMiss(w: World, es: seq<Event>, o: OpId, h: Id, i: Id)
    requires Inv(w) && i in w.db.pickups && w.db.pickups[i].household == h && Gone(Run(w, es), h)
    ensures var v := Run(w, es); var u := Next(v, Step(o, true));
      && i !in v.db.pickups
      && (o in v.ops && v.ops[o] == CancelUpdating(i) ==>
            u.db == v.db && o in u.ops && u.ops[o] == CancelReading(i, false, None))
      && (o in v.ops && v.ops[o].CycleCanceling? ==>
            o in u.ops && u.ops[o].CycleCounting? && i !in u.ops[o].hit && i !in u.db.pickups
            && forall j | j in u.ops[o].hit :: j in v.db.pickups && v.db.pickups[j].household != h)
  {
    hide Inv, Run, Next;
    RunInv(w, es);
    var v := Run(w, es);
    GoneRows(v, h);
    RowsLast(w, es, i, h);
    if o in v.ops && v.ops[o] == CancelUpdating(i) {
      CancelOfNothing(v, o, i);
    } else if o in v.ops && v.ops[o].CycleCanceling? {
      CycleHits(v, o);
    }
  }

  lemma RowsLast(w: World, es: seq<Event>, i: Id, h: Id)
    requires Inv(w) && i in w.db.pickups && w.db.pickups[i].household == h
    ensures i in Run(w, es).db.pickups ==> Run(w, es).db.pickups[i].household == h
  {
    RunInv(w, es);
    hide Run;
  }

  lemma CancelOfNothing(w: World, o: OpId, i: Id)
    requires o in w.ops && w.ops[o] == CancelUpdating(i) && i !in w.db.pickups
    ensures var u := Next(w, Step(o, true)); u.db == w.db && o in u.ops && u.ops[o] == CancelReading(i, false, None)
  {
    assert Matching(w.db, {i}, {Pending, Scheduled}) == {};
    assert SetPickups(w.db, {}, Canceled, None, w.now).pickups == w.db.pickups;
  }

  lemma CycleHits(w: World, o: OpId)
    requires o in w.ops && w.ops[o].CycleCanceling?
    ensures var u := Next(w, Step(o, true));
      && o in u.ops && u.ops[o].CycleCounting? && u.ops[o].hit <= w.db.pickups.Keys
      && u.db.pickups.Keys == w.db.pickups.Keys
  {
  }

  lemma GoneRows(w: World, h: Id)
    requires Inv(w) && Gone(w, h)
    ensures forall i | i in w.db.pickups :: w.db.pickups[i].household != h
  {
  }

  /** The operation is about to write a row that belongs, or belonged, to household `h`. */
  ghost predicate WritesFor(op: Op, h: Id) {
    match op
    case CreateInserting(household, _, _, _) => household == h
    case ScheduleUpdating(_, _, snap) => snap.household == h
    case CompleteWriting(_, snap, _, _) => snap.household == h
    case PayInserting(household, _, _) => household == h
    case ConfirmUpdating(_, bill, _, _) => bill.household == h
    case _ => false
  }

  /** Each remaining write of an operation on a deleted household affects no row or is
      rejected by a foreign key, and the tables stay as they are. */
  lemma OrphanWritesMiss(w: World, op: Op, h: Id)
    requires Inv(w) && Gone(w, h) && OpOk(w.db, w.nextId, op) && WritesFor(op, h)
    ensures CallOf(op, w.nextId).Db?
    ensures var (u, r) := Apply(w.db, w.now, CallOf(op, w.nextId).write);
      u == w.db && r == (if op.CreateInserting? || op.PayInserting? then Violated(ForeignKey) else Rows(0))
  {
  }

  lemma EachOpOk(w: World, o: OpId)
    requires Inv(w) && o in w.ops
    ensures OpOk(w.db, w.nextId, w.ops[o])
  {
  }

  /** What the caller of such an operation is told: not found, or a conflict. */
  lemma OrphanOutcome(w: World, o: OpId, h: Id)
    requires Inv(w) && Gone(w, h) && o in w.ops && WritesFor(w.ops[o], h)
    ensures var op := w.ops[o]; var v := Next(w, Step(o, true));
      && v.db == w.db
      && v.ops[o] == match op
                     case CreateInserting(_, _, _, _) => Returned(Refused(NotFound))
                     case PayInserting(_, _, _) => Returned(Refused(NotFound))
                     case ConfirmUpdating(_, _, key, _) => ConfirmCleaning(key, Conflict)
                     case _ => Returned(Refused(Conflict))
  {
    hide Inv, StepOp, Apply, OpOk, Gone;
    EachOpOk(w, o);
    OrphanWritesMiss(w, w.ops[o], h);
    StepParts(w, o, true);
    ActDb(w, CallOf(w.ops[o], w.nextId), true);
  }
}

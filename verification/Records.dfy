/** Records handed to callers are snapshots; here is what they are worth later on. */
module Records {
  import opened Domain
  import opened Sql
  import opened Integrity
  import opened Machine
  import opened Invariant
  import opened Answers
  import opened Billing
  import opened Calls

  /** `q` is the record `p` or a later state of it, up to the time of the last update. */
  predicate LaterPickup(p: Pickup, q: Pickup) {
    PickupEvolves(p.(updatedAt := q.updatedAt), q)
  }

  predicate LaterPayment(p: Payment, q: Payment) {
    PaymentEvolves(p.(updatedAt := q.updatedAt), q)
  }

  /** The row a record describes, if it still exists, is the record or a later state of it. */
  predicate TruePickup(t: Tables, n: Id, p: Pickup) {
    p.id < n && (p.id in t.pickups ==> LaterPickup(p, t.pickups[p.id]))
  }

  predicate TruePayment(t: Tables, p: Payment) {
    p.id in t.spent && (p.id in t.payments ==> LaterPayment(p, t.payments[p.id]))
  }

  /** The record an operation is about to return, or has returned. */
  predicate Truthful(t: Tables, n: Id, op: Op) {
    match op
    case CreateCounting(row) => TruePickup(t, n, row)
    case CompleteCounting(row) => TruePickup(t, n, row)
    case CancelCounting(row) => TruePickup(t, n, row)
    case PayCounting(due) => TruePayment(t, due)
    case ConfirmCounting(due) => TruePayment(t, due)
    case Returned(PickupReturned(row)) => TruePickup(t, n, row)
    case Returned(PaymentReturned(due)) => TruePayment(t, due)
    case _ => true
  }

  ghost predicate AllTruthful(w: World) {
    forall o | o in w.ops :: Truthful(w.db, w.nextId, w.ops[o])
  }

  lemma TruthLasts(t: Tables, n: Id, u: Tables, m: Id, op: Op)
    requires Evolves(t, n, u) && n <= m && Truthful(t, n, op)
    ensures Truthful(u, m, op)
  {
  }

  predicate Recorded(op: Op) {
    op.CreateCounting? || op.CompleteCounting? || op.CancelCounting? || op.PayCounting? || op.ConfirmCounting?
    || op.Returned?
  }

  /** A step of an operation that already has its record keeps it. */
  lemma KeepsRecord(w: World, o: OpId, ok: bool)
    requires o in w.ops && Recorded(w.ops[o]) && Truthful(w.db, w.nextId, w.ops[o])
    ensures var v := StepOp(w, o, ok); v.db == w.db && Truthful(v.db, v.nextId, v.ops[o])
  {
  }

  lemma InsertIsTruthful(w: World, o: OpId, ok: bool)
    requires o in w.ops && (w.ops[o].CreateInserting? || w.ops[o].PayInserting?)
    ensures var v := StepOp(w, o, ok); Truthful(v.db, v.nextId, v.ops[o])
  {
  }

  /** What the snapshot of an updating operation is about. */
  lemma SnapshotId(w: World, o: OpId)
    requires OpsOk(w) && o in w.ops
    requires w.ops[o].ScheduleUpdating? || w.ops[o].CompleteWriting? || w.ops[o].ConfirmUpdating?
    ensures var op := w.ops[o];
      if op.ConfirmUpdating? then op.bill.id == op.id && op.id in w.db.spent
      else op.snap.id == op.id && op.id < w.nextId
  {
  }

  lemma SpentStays(w: World, o: OpId)
    requires Inv(w)
    ensures w.db.spent <= Next(w, Step(o, true)).db.spent
  {
    NextInv(w, Step(o, true));
    hide Inv, Next;
  }

  lemma StepAdvances(w: World, o: OpId)
    requires o in w.ops
    ensures Next(w, Step(o, true)).nextId == w.nextId + 1 && o in Next(w, Step(o, true)).ops
  {
  }

  lemma ScheduleIsTruthful(w: World, o: OpId)
    requires Inv(w) && o in w.ops && w.ops[o].ScheduleUpdating?
    ensures var v := Next(w, Step(o, true)); o in v.ops && Truthful(v.db, v.nextId, v.ops[o])
  {
    hide Next;
    var op := w.ops[o];
    SnapshotId(w, o);
    StepAdvances(w, o);
    var admitted := op.id in w.db.pickups && w.db.pickups[op.id].status == Pending;
    ScheduleMoves(w, o, if admitted then None else Some(Conflict));
    ScheduleReturnsTheRow(w, o);
    hide Inv;
  }

  lemma CompleteIsTruthful(w: World, o: OpId)
    requires Inv(w) && o in w.ops && w.ops[o].CompleteWriting?
    ensures var v := Next(w, Step(o, true)); o in v.ops && Truthful(v.db, v.nextId, v.ops[o])
  {
    hide Next;
    SnapshotId(w, o);
    StepAdvances(w, o);
    CompleteSucceedsIff(w, o);
    if Next(w, Step(o, true)).ops[o].CompleteCounting? {
      CompleteReturnsTheRow(w, o);
    }
    hide Inv;
  }

  lemma ConfirmIsTruthful(w: World, o: OpId)
    requires Inv(w) && OpsOk(w) && o in w.ops && w.ops[o].ConfirmUpdating?
    ensures var v := Next(w, Step(o, true)); o in v.ops && Truthful(v.db, v.nextId, v.ops[o])
  {
    hide Next, Inv;
    var op := w.ops[o];
    SnapshotId(w, o);
    StepAdvances(w, o);
    SpentStays(w, o);
    var pending := op.id in w.db.payments && w.db.payments[op.id].status == PaymentPending;
    ConfirmMoves(w, o, if pending then None else Some(Conflict));
    ConfirmReturnsTheRow(w, o);
  }

  /** A cancel that took effect returns the row it reads. */
  lemma CancelIsTruthful(w: World, o: OpId)
    requires Inv(w) && o in w.ops && w.ops[o].CancelReading?
    ensures var v := Next(w, Step(o, true)); o in v.ops && Truthful(v.db, v.nextId, v.ops[o])
  {
  }

  /** No other step produces a record. */
  lemma NoRecord(w: World, o: OpId, ok: bool)
    requires o in w.ops && !Recorded(w.ops[o])
    requires !ok || !(CallOf(w.ops[o], w.nextId).Db? || w.ops[o].CancelReading?)
    ensures var v := StepOp(w, o, ok); Truthful(v.db, v.nextId, v.ops[o])
  {
  }

  /** The step that first produces a record produces a true one. */
  lemma StepIsTruthful(w: World, o: OpId, ok: bool)
    requires Inv(w) && o in w.ops && Truthful(w.db, w.nextId, w.ops[o])
    ensures var v := Next(w, Step(o, ok)); o in v.ops && Truthful(v.db, v.nextId, v.ops[o])
  {
    var op := w.ops[o];
    hide Inv, StepOp;
    if Recorded(op) {
      KeepsRecord(w, o, ok);
    } else if op.CreateInserting? || op.PayInserting? {
      InsertIsTruthful(w, o, ok);
    } else if ok && op.ScheduleUpdating? {
      ScheduleIsTruthful(w, o);
    } else if ok && op.CompleteWriting? {
      CompleteIsTruthful(w, o);
    } else if ok && op.ConfirmUpdating? {
      ConfirmIsTruthful(w, o);
    } else if ok && op.CancelReading? {
      CancelIsTruthful(w, o);
    } else if ok && CallOf(op, w.nextId).Db? {
      StepParts(w, o, ok);
    } else {
      NoRecord(w, o, ok);
    }
  }

  /** An event leaves every other operation alone, and a new one has no record. */
  lemma OthersAlone(w: World, e: Event, o: OpId)
    requires o in Next(w, e).ops && !(e.Step? && e.op == o)
    ensures var v := Next(w, e); if o in w.ops then v.ops[o] == w.ops[o] else Truthful(v.db, v.nextId, v.ops[o])
  {
  }

  lemma NextIsTruthful(w: World, e: Event)
    requires Inv(w) && AllTruthful(w)
    ensures AllTruthful(Next(w, e))
  {
    hide Inv, Next, Evolves, Truthful;
    NextInv(w, e);
    var v := Next(w, e);
    forall o | o in v.ops ensures Truthful(v.db, v.nextId, v.ops[o]) {
      if e.Step? && e.op == o {
        if o in w.ops {
          StepIsTruthful(w, o, e.ok);
        } else {
          NotStarted(w, e);
        }
      } else {
        OthersAlone(w, e, o);
        if o in w.ops {
          TruthLasts(w.db, w.nextId, v.db, v.nextId, w.ops[o]);
        }
      }
    }
  }

  lemma NotStarted(w: World, e: Event)
    requires e.Step? && e.op !in w.ops
    ensures Next(w, e) == w
  {
  }

  /** Every record any service method ever returned is still true, however long ago it was
      returned and whatever has run since: the row is gone, or it is the record, up to
      `updated_at`, or a later state of it. */
  lemma {:induction false} RecordsStayTrue(now: Time, es: seq<Event>)
    ensures AllTruthful(Run(Init(now), es))
  {
    if es != [] {
      var before := es[..|es| - 1];
      RecordsStayTrue(now, before);
      Reachable(now, before);
      NextIsTruthful(Run(Init(now), before), es[|es| - 1]);
    }
  }
}

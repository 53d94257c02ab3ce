/** What callers are told, although it was read before or after the write it reports. */
module Answers {
  import opened Domain
  import opened Sql
  import opened Integrity
  import opened Machine
  import opened Invariant

  /** No event of `es` is a step of operation `o`. */
  predicate Silent(es: seq<Event>, o: OpId) {
    forall k | 0 <= k < |es| :: !(es[k].Step? && es[k].op == o)
  }

  lemma {:induction false} OthersKeep(w: World, es: seq<Event>, o: OpId)
    requires o in w.ops && Silent(es, o)
    ensures o in Run(w, es).ops && Run(w, es).ops[o] == w.ops[o]
  {
    if es != [] {
      OthersKeep(w, es[..|es| - 1], o);
    }
  }

  /** How an event changes the operations: at most one of them. */
  lemma OpsAfter(w: World, e: Event)
    ensures var v := Next(w, e);
      if e.Step? && e.op in w.ops then e.op in v.ops && v.ops == w.ops[e.op := v.ops[e.op]]
      else if e.Start? && e.op !in w.ops then v.ops == w.ops[e.op := Begin(w, e.request)]
      else v.ops == w.ops
  {
  }

  // ---- records returned after a write ----

  /** Equal except for the time of the last update. */
  predicate SameRecord(p: Pickup, q: Pickup) {
    p.(updatedAt := q.updatedAt) == q
  }

  /** Schedule returns its old snapshot with two fields overwritten; that is the row just
      after the update. */
  lemma ScheduleReturnsTheRow(w: World, o: OpId)
    requires Inv(w) && o in w.ops && w.ops[o].ScheduleUpdating?
    ensures var id := w.ops[o].id; var v := Next(w, Step(o, true));
      if id in w.db.pickups && w.db.pickups[id].status == Pending then
        && v.ops[o].Returned? && v.ops[o].outcome.PickupReturned?
        && id in v.db.pickups && SameRecord(v.ops[o].outcome.pickup, v.db.pickups[id])
        && v.db.pickups[id].status == Scheduled && v.db.pickups[id].pickupDate == Some(w.ops[o].date)
      else v.ops[o] == Returned(Refused(Conflict)) && v.db == w.db
  {
    var op := w.ops[o];
    assert OpOk(w.db, w.nextId, op);
    SingleRow(w.db, op.id, {Pending});
    StepParts(w, o, true);
    ActDb(w, CallOf(op, w.nextId), true);
    var hit := Matching(w.db, {op.id}, {Pending});
    if op.id in w.db.pickups && w.db.pickups[op.id].status == Pending {
      assert op.id in hit;
      assert w.db.pickups[op.id] == op.snap;
    } else {
      assert hit == {};
      assert SetPickups(w.db, hit, Scheduled, Some(op.date), w.now).pickups == w.db.pickups;
    }
  }

  /** Complete likewise, and the date it returns is the one the row was scheduled with. */
  lemma CompleteReturnsTheRow(w: World, o: OpId)
    requires Inv(w) && o in w.ops && w.ops[o].CompleteWriting?
    requires Next(w, Step(o, true)).ops[o].CompleteCounting?
    ensures var id := w.ops[o].id; var v := Next(w, Step(o, true));
      id in v.db.pickups && SameRecord(v.ops[o].row, v.db.pickups[id]) && v.db.pickups[id].status == Completed
  {
    var op := w.ops[o];
    assert OpOk(w.db, w.nextId, op);
    CompleteTxCases(w.db, w.now, CallOf(op, w.nextId).write);
    StepParts(w, o, true);
    ActDb(w, CallOf(op, w.nextId), true);
  }

  /** Confirm pays the bill exactly if it is still pending, and then returns the row just
      after the update except for `updated_at`. */
  lemma ConfirmReturnsTheRow(w: World, o: OpId)
    requires OpsOk(w) && o in w.ops && w.ops[o].ConfirmUpdating?
    ensures var op := w.ops[o]; var v := Next(w, Step(o, true));
      if op.id in w.db.payments && w.db.payments[op.id].status == PaymentPending then
        && v.ops[o].ConfirmCounting? && op.id in v.db.payments
        && v.ops[o].due.(updatedAt := w.now) == v.db.payments[op.id]
        && v.ops[o].due.proof == Some(op.key) && v.ops[o].due.paymentDate == Some(op.paidAt)
      else v.ops[o] == ConfirmCleaning(op.key, Conflict) && v.db == w.db
  {
  }

  // ---- the two-read diagnosis of Cancel ----

  /** A failed Cancel reads the row again to say why it failed, and the row may have been
      deleted but not changed in between: "completed" and "already canceled" are what the row
      was at the failed update. Other operations run between start and update (`es0`), and
      between update and read (`es`). */
  lemma CancelDiagnosis(w0: World, o: OpId, id: Id, es0: seq<Event>, es: seq<Event>)
    requires Inv(w0) && o !in w0.ops && Silent(es0, o) && Silent(es, o)
    ensures var w := Run(Next(w0, Start(o, Cancel(id))), es0);
      var v1 := Next(w, Step(o, true));
      var v2 := Run(v1, es);
      var v3 := Next(v2, Step(o, true));
      var hit := id in w.db.pickups && w.db.pickups[id].status in {Pending, Scheduled};
      && v1.db == (if hit then
                     w.db.(pickups := w.db.pickups[id := w.db.pickups[id].(status := Canceled, updatedAt := w.now)])
                   else w.db)
      && o in v3.ops && v3.db == v2.db
      && (id !in v2.db.pickups ==> v3.ops[o] == Returned(Refused(NotFound)))
      && (id in v2.db.pickups && hit ==>
            v3.ops[o] == CancelCounting(v2.db.pickups[id]) && v2.db.pickups[id].status == Canceled)
      && (id in v2.db.pickups && !hit ==>
            && id in w.db.pickups
            && v3.ops[o] == Returned(CancelRefused(w.db.pickups[id].status == Completed))
            && w.db.pickups[id].status in {Completed, Canceled})
  {
    hide Inv, Next, Run;
    var w1 := Next(w0, Start(o, Cancel(id)));
    var w := Run(w1, es0);
    var v1 := Next(w, Step(o, true));
    CancelStarts(w0, o, id);
    OthersKeep(w1, es0, o);
    RunInv(w1, es0);
    CancelStep(w, o);
    NextInv(w, Step(o, true));
    OthersKeep(v1, es, o);
    RunInv(v1, es);
    CancelRowsLast(v1, es, id);
    CancelAnswer(Run(v1, es), o);
  }

  lemma CancelStarts(w: World, o: OpId, id: Id)
    requires Inv(w) && o !in w.ops
    ensures var v := Next(w, Start(o, Cancel(id))); Inv(v) && o in v.ops && v.ops[o] == CancelUpdating(id)
  {
    NextInv(w, Start(o, Cancel(id)));
  }

  /** No row appears under an id that has been mentioned. */
  lemma CancelRowsLast(w: World, es: seq<Event>, id: Id)
    requires Inv(w) && id < w.nextId
    ensures id in Run(w, es).db.pickups ==> id in w.db.pickups
  {
    RunInv(w, es);
  }

  lemma CancelStep(w: World, o: OpId)
    requires Inv(w) && o in w.ops && w.ops[o].CancelUpdating?
    ensures var id := w.ops[o].id; var v := Next(w, Step(o, true));
      var hit := id in w.db.pickups && w.db.pickups[id].status in {Pending, Scheduled};
      && o in v.ops && v.ops[o] == CancelReading(id, hit, FindPickup(w.db, id))
      && id < v.nextId
      && v.db == (if hit then
                    w.db.(pickups := w.db.pickups[id := w.db.pickups[id].(status := Canceled, updatedAt := w.now)])
                  else w.db)
  {
    hide Inv, StepOp, Exec;
    UpdateOneRow(w.db, w.ops[o].id, {Pending, Scheduled}, Canceled, None, w.now);
    StepParts(w, o, true);
    ActDb(w, CallOf(w.ops[o], w.nextId), true);
    CancelKnows(w, o);
  }

  lemma CancelKnows(w: World, o: OpId)
    requires Inv(w) && o in w.ops && w.ops[o].CancelUpdating?
    ensures w.ops[o].id < w.nextId
  {
    assert OpOk(w.db, w.nextId, w.ops[o]);
  }

  lemma CancelAnswer(w: World, o: OpId)
    requires Inv(w) && o in w.ops && w.ops[o].CancelReading?
    ensures var op := w.ops[o]; var v := Next(w, Step(o, true));
      && o in v.ops && v.db == w.db
      && v.ops[o] == (if op.id !in w.db.pickups then Returned(Refused(NotFound))
                      else if op.done then CancelCounting(w.db.pickups[op.id])
                      else Returned(CancelRefused(w.db.pickups[op.id].status == Completed)))
      && (op.id in w.db.pickups && op.done ==> w.db.pickups[op.id].status == Canceled)
      && (op.id in w.db.pickups && !op.done ==>
            && op.seen.Some? && op.seen.value.status == w.db.pickups[op.id].status
            && w.db.pickups[op.id].status in {Completed, Canceled})
  {
  }
}

/** Every change of a row over a whole run, traced to the request that asked for it, and the
    business rules that follow. */
module Rules {
  import opened Domain
  import opened Sql
  import opened Integrity
  import opened Machine
  import opened Invariant
  import opened Billing

  // ---- requests along a run ----

  /** The request operation `o` was started with, if it was; it is started at most once. */
  function Asked(es: seq<Event>, o: OpId): Option<Request> {
    if es == [] then None
    else
      var e := es[|es| - 1];
      if Asked(es[..|es| - 1], o).Some? then Asked(es[..|es| - 1], o)
      else if e.Start? && e.op == o then Some(e.request)
      else None
  }

  lemma {:induction false} AskedIsStarted(es: seq<Event>, o: OpId)
    requires Asked(es, o).Some?
    ensures Start(o, Asked(es, o).value) in es
  {
    var before := es[..|es| - 1];
    if Asked(before, o).Some? {
      AskedIsStarted(before, o);
    }
  }

  /** Operation `op` is somewhere between the start and the answer of request `r`. */
  predicate Serves(now: Time, r: Request, op: Op) {
    match op
    case CreateChecking(household, kind, safetyCheck) => r == CreatePickup(household, kind, safetyCheck)
    case CreateInserting(household, kind, safetyCheck, _) => r == CreatePickup(household, kind, safetyCheck)
    case CreateCounting(_) => r.CreatePickup?
    case ScheduleReading(id, date) => r == Schedule(id, date)
    case ScheduleChecking(id, date, _) => r == Schedule(id, date)
    case ScheduleUpdating(id, date, _) => r == Schedule(id, date)
    case CompleteReading(id) => r == Complete(id)
    case CompleteBeginning(id, _) => r == Complete(id)
    case CompleteWriting(id, _, _, stamp) => r == Complete(id) && stamp <= now
    case CompleteCounting(_) => r.Complete?
    case CancelUpdating(id) => r == Cancel(id)
    case CancelReading(id, _, _) => r == Cancel(id)
    case CancelCounting(_) => r.Cancel?
    case PayReading(household, waste) => r.CreatePayment? && r.household == household && r.waste == waste
    case PayInserting(household, waste, _) => r.CreatePayment? && r.household == household && r.waste == waste
    case PayCounting(_) => r.CreatePayment?
    case ConfirmReading(id) => r == Confirm(id, true)
    case ConfirmKeying(id, _) => r == Confirm(id, true)
    case ConfirmUploading(id, _, _) => r == Confirm(id, true)
    case ConfirmStamping(id, _, _) => r == Confirm(id, true)
    case ConfirmUpdating(id, _, _, paidAt) => r == Confirm(id, true) && paidAt <= now
    case ConfirmCleaning(_, _) => r.Confirm? && r.hasFile
    case ConfirmCounting(_) => r.Confirm? && r.hasFile
    case CycleFinding(before) => r.RunCycle? && before + r.cutoff <= now
    case CycleCanceling(before, _) => r.RunCycle? && before + r.cutoff <= now
    case CycleCounting(_, _) => r.RunCycle?
    case Returned(outcome) => r.Confirm? && !r.hasFile ==> outcome == Refused(Validation)
  }

  ghost predicate AllServe(w: World, es: seq<Event>) {
    forall o :: (o in w.ops <==> Asked(es, o).Some?) && (o in w.ops ==> Serves(w.now, Asked(es, o).value, w.ops[o]))
  }

  lemma ResumeServes(w: World, op: Op, a: Answer, r: Request)
    requires Serves(w.now, r, op)
    ensures Serves(w.now, r, Resume(w, op, a))
  {
  }

  lemma BeginServes(w: World, r: Request)
    ensures Serves(w.now, r, Begin(w, r))
  {
  }

  lemma ServesLater(now: Time, later: Time, r: Request, op: Op)
    requires now <= later && Serves(now, r, op)
    ensures Serves(later, r, op)
  {
  }

  /** What an event does to the clock and to the operations. */
  lemma EventParts(w: World, e: Event)
    ensures var v := Next(w, e);
      && w.now <= v.now && (!e.Tick? ==> v.now == w.now)
      && v.ops == (if e.Step? && e.op in w.ops then
                     w.ops[e.op := Resume(w, w.ops[e.op], Act(w, CallOf(w.ops[e.op], w.nextId), e.ok).1)]
                   else if e.Start? && e.op !in w.ops then w.ops[e.op := Begin(w, e.request)]
                   else w.ops)
  {
    if e.Step? && e.op in w.ops {
      StepParts(w, e.op, e.ok);
    }
  }

  lemma {:induction false} RunServes(now: Time, es: seq<Event>)
    ensures AllServe(Run(Init(now), es), es)
  {
    if es != [] {
      var before, e := es[..|es| - 1], es[|es| - 1];
      RunServes(now, before);
      var w, v := Run(Init(now), before), Run(Init(now), es);
      EventParts(w, e);
      hide Serves, Resume, Act, CallOf, Next, Begin;
      forall o | o in v.ops ensures Asked(es, o).Some? && Serves(v.now, Asked(es, o).value, v.ops[o]) {
        if e.Step? && e.op == o && o in w.ops {
          ResumeServes(w, w.ops[o], Act(w, CallOf(w.ops[o], w.nextId), e.ok).1, Asked(before, o).value);
        } else if o in w.ops {
          ServesLater(w.now, v.now, Asked(before, o).value, w.ops[o]);
        } else {
          BeginServes(w, e.request);
        }
      }
    }
  }

  // ---- what is asked for is what is written ----

  /** A write that request `r` asks for. */
  predicate Wanted(now: Time, r: Request, a: Write) {
    match a
    case CompleteTx(pickup, _, _, _, stamp) => r == Complete(pickup) && stamp <= now
    case Single(InsertPickup(_, household, kind, safetyCheck)) => r == CreatePickup(household, kind, safetyCheck)
    case Single(UpdatePickups(ids, from, to, date)) =>
      || (from == {Pending} && to == Scheduled && date.Some? && r.Schedule? && ids == {r.id} && date.value == r.date)
      || (from == {Pending, Scheduled} && to == Canceled && date.None? && r.Cancel? && ids == {r.id})
      || (from == {Pending, Scheduled} && to == Canceled && date.None? && r.RunCycle?)
    case Single(InsertPayment(_, household, waste, _)) =>
      r.CreatePayment? && r.household == household && r.waste == waste
    case Single(ConfirmPayment(id, _, paidAt)) => r == Confirm(id, true) && paidAt <= now
    case _ => false
  }

  lemma CallIsWanted(now: Time, n: Id, r: Request, op: Op)
    requires Serves(now, r, op) && CallOf(op, n).Db?
    ensures Wanted(now, r, CallOf(op, n).write)
  {
  }

  /** What a bulk cancel lists: organic pickups from before the cutoff time of its cycle. */
  lemma CycleListsOld(w: World, r: Request, op: Op)
    requires OpOk(w.db, w.nextId, op) && Serves(w.now, r, op) && op.CycleCanceling?
    ensures r.RunCycle? && forall i | i in op.ids && i in w.db.pickups ::
              w.db.pickups[i].kind == Organic && w.db.pickups[i].createdAt < w.now - r.cutoff
  {
  }

  /** The event is a successful step of an operation that was started with request `r`. */
  predicate By(es: seq<Event>, e: Event, r: Request) {
    e.Step? && e.ok && Asked(es, e.op) == Some(r)
  }

  /** An event that writes is a household event, or a step of an operation whose request wants
      that write. */
  lemma WriterIsAsked(now: Time, es: seq<Event>, e: Event)
    ensures var w := Run(Init(now), es); var a := WriteOf(w, e);
      && Inv(w)
      && (a.Some? && e.Step? ==>
            && Asked(es, e.op).Some? && By(es, e, Asked(es, e.op).value)
            && Wanted(w.now, Asked(es, e.op).value, a.value)
            && (a.value.Single? && a.value.statement.UpdatePickups? && Asked(es, e.op).value.RunCycle? ==>
                  forall i | i in a.value.statement.ids && i in w.db.pickups ::
                    && w.db.pickups[i].kind == Organic
                    && w.db.pickups[i].createdAt < w.now - Asked(es, e.op).value.cutoff))
      && (a.Some? && !e.Step? ==>
            || (e.AddHousehold? && a.value == Single(InsertHousehold(w.nextId, e.owner, e.address)))
            || (e.RemoveHousehold? && a.value == Single(DeleteHousehold(e.household))))
  {
    Reachable(now, es);
    RunServes(now, es);
    var w := Run(Init(now), es);
    if WriteOf(w, e).Some? && e.Step? {
      var op, r := w.ops[e.op], Asked(es, e.op).value;
      CallIsWanted(w.now, w.nextId, r, op);
      if op.CycleCanceling? {
        EachOpOk(w, e.op);
        CycleListsOld(w, r, op);
      }
    }
  }

  lemma EachOpOk(w: World, o: OpId)
    requires Inv(w) && o in w.ops
    ensures OpOk(w.db, w.nextId, w.ops[o])
  {
  }

  // ---- pickups ----

  /** The effect of one write on pickup `i`. */
  lemma WriteOnPickup(t: Tables, n: Id, now: Time, a: Write, i: Id)
    requires Keyed(t, n) && Issued(a) && Generated(t, n, a)
    ensures var u := Apply(t, now, a).0;
      && (i in u.pickups && i !in t.pickups ==>
            && a.Single? && a.statement.InsertPickup? && var s := a.statement;
            u.pickups[i] == Pickup(i, s.household, s.kind, Pending, None, s.safetyCheck, now, now))
      && (i in t.pickups && i !in u.pickups ==>
            a.Single? && a.statement.DeleteHousehold? && a.statement.id == t.pickups[i].household)
      && (i in t.pickups && i in u.pickups && t.pickups[i] != u.pickups[i] ==>
            var p := t.pickups[i];
            if a.CompleteTx? then
              a.pickup == i && p.status == Scheduled
              && u.pickups[i] == p.(status := Completed, updatedAt := a.stamp)
            else
              && a.statement.UpdatePickups? && var s := a.statement;
              && i in s.ids && p.status in s.from
              && u.pickups[i] == p.(status := s.to, updatedAt := now,
                                    pickupDate := if s.date.Some? then s.date else p.pickupDate))
  {
    if a.CompleteTx? {
      CompleteTxCases(t, now, a);
    }
  }

  /** Every pickup that appears was asked for with its household, type and safety check; every
      change of a row was asked for by a request that names it, and writes what was asked and
      nothing else; and a row vanishes only with its household. */
  lemma PickupChangesAreAsked(now: Time, es: seq<Event>, e: Event, i: Id)
    ensures var w := Run(Init(now), es); var t, u := w.db, Next(w, e).db;
      && (i in u.pickups && i !in t.pickups ==>
            var q := u.pickups[i];
            && By(es, e, CreatePickup(q.household, q.kind, q.safetyCheck))
            && q.id == i && q.status == Pending && q.pickupDate.None? && q.createdAt == q.updatedAt == w.now)
      && (i in t.pickups && i !in u.pickups ==> e == RemoveHousehold(t.pickups[i].household))
      && (i in t.pickups && i in u.pickups && t.pickups[i] != u.pickups[i] ==>
            var p, q := t.pickups[i], u.pickups[i];
            match q.status
            case Pending => false
            case Scheduled =>
              && p.status == Pending && q.pickupDate.Some? && By(es, e, Schedule(i, q.pickupDate.value))
              && q == p.(status := Scheduled, pickupDate := q.pickupDate, updatedAt := w.now)
            case Completed =>
              && p.status == Scheduled && By(es, e, Complete(i))
              && q == p.(status := Completed, updatedAt := q.updatedAt) && q.updatedAt <= w.now
            case Canceled =>
              && p.status in {Pending, Scheduled} && q == p.(status := Canceled, updatedAt := w.now)
              && e.Step? && Asked(es, e.op).Some? && var r := Asked(es, e.op).value;
              && By(es, e, r)
              && (r == Cancel(i) || (r.RunCycle? && p.kind == Organic && p.createdAt < w.now - r.cutoff)))
  {
    var w := Run(Init(now), es);
    WriterIsAsked(now, es, e);
    NextDb(w, e);
    AllKeyed(w);
    hide Inv, Next, Run, Init, Apply, WriteOf, Asked, Keyed;
    var a := WriteOf(w, e);
    if a.Some? {
      WriteOnPickup(w.db, w.nextId, w.now, a.value, i);
    }
  }

  lemma AllKeyed(w: World)
    requires Inv(w)
    ensures Keyed(w.db, w.nextId)
  {
  }

  // ---- payments ----

  /** The pickup is completed between the two states. */
  predicate Completes(t: Tables, u: Tables, i: Id) {
    && i in t.pickups && t.pickups[i].status == Scheduled
    && i in u.pickups && u.pickups[i].status == Completed
  }

  /** The effect of one write on payment `j`. */
  lemma WriteOnPayment(t: Tables, n: Id, now: Time, a: Write, j: Id)
    requires Keyed(t, n) && Linked(t) && Issued(a) && Generated(t, n, a)
    ensures var u := Apply(t, now, a).0;
      && (j in u.payments && j !in t.payments ==>
            if a.CompleteTx? then
              && u.payments[j]
                 == Payment(j, a.household, a.pickup, a.amount, None, PaymentPending, None, a.stamp, a.stamp)
              && Completes(t, u, a.pickup)
            else
              && a.statement.InsertPayment? && var s := a.statement;
              && u.payments[j] == Payment(j, s.household, s.waste, s.amount, None, PaymentPending, None, now, now)
              && !Completes(t, u, s.waste))
      && (j in t.payments && j !in u.payments ==>
            a.Single? && a.statement.DeleteHousehold? && a.statement.id == t.payments[j].household)
      && (j in t.payments && j in u.payments && t.payments[j] != u.payments[j] ==>
            && a.Single? && a.statement.ConfirmPayment? && var s := a.statement;
            && s.id == j && t.payments[j].status == PaymentPending
            && u.payments[j] == t.payments[j].(
                 status := PaymentPaid, paymentDate := Some(s.paidAt), proof := Some(s.proof), updatedAt := now))
  {
    if a.CompleteTx? {
      CompleteTxCases(t, now, a);
    }
  }

  /** BR-05 and BR-06 over runs. A payment appears because its pickup is completed in the same
      event by a Complete of that pickup, or because it was asked for with this household and
      this pickup; the amount is 100000.00 for electronic waste and 50000.00 for everything
      else. It becomes paid only by a Confirm of it that came with a file, and with a proof that
      is in the store. It vanishes only with its household. */
  lemma PaymentChangesAreAsked(now: Time, es: seq<Event>, e: Event, j: Id)
    ensures var w := Run(Init(now), es); var v := Next(w, e); var t, u := w.db, v.db;
      && (j in u.payments && j !in t.payments ==>
            var q := u.payments[j];
            && q.waste in u.pickups && u.pickups[q.waste].household == q.household
            && q == Payment(j, q.household, q.waste,
                            if u.pickups[q.waste].kind == Electronic then 100_000_00 else 50_000_00,
                            None, PaymentPending, None, q.createdAt, q.createdAt)
            && q.createdAt <= w.now
            && e.Step? && Asked(es, e.op).Some? && var r := Asked(es, e.op).value;
            && By(es, e, r)
            && if Completes(t, u, q.waste) then r == Complete(q.waste)
               else r.CreatePayment? && r.household == q.household && r.waste == q.waste)
      && (j in t.payments && j !in u.payments ==> e == RemoveHousehold(t.payments[j].household))
      && (j in t.payments && j in u.payments && t.payments[j] != u.payments[j] ==>
            var p, q := t.payments[j], u.payments[j];
            && By(es, e, Confirm(j, true)) && p.status == PaymentPending
            && q.paymentDate.Some? && q.paymentDate.value <= w.now
            && q.proof.Some? && q.proof.value.payment == j && q.proof.value in v.objects
            && q == p.(status := PaymentPaid, paymentDate := q.paymentDate, proof := q.proof, updatedAt := w.now))
  {
    var w := Run(Init(now), es);
    var v := Next(w, e);
    WriterIsAsked(now, es, e);
    NextInv(w, e);
    NextDb(w, e);
    TablesOf(w);
    if j in v.db.payments {
      BillIsRight(v, j);
    }
    hide Inv, Next, Run, Init, Apply, WriteOf, Asked, Keyed, Linked, Completes, Issued, Generated, Justified;
    var a := WriteOf(w, e);
    if a.Some? {
      WriteOnPayment(w.db, w.nextId, w.now, a.value, j);
    }
  }

  lemma TablesOf(w: World)
    requires Inv(w)
    ensures Keyed(w.db, w.nextId) && Linked(w.db)
  {
  }

  lemma BillIsRight(w: World, j: Id)
    requires Inv(w) && j in w.db.payments
    ensures var p := w.db.payments[j];
      && p.id == j && p.waste in w.db.pickups && p.household == w.db.pickups[p.waste].household
      && p.amount == (if w.db.pickups[p.waste].kind == Electronic then 100_000_00 else 50_000_00)
      && (p.proof.Some? ==> p.proof.value.payment == j && p.proof.value in w.objects)
  {
    var p := w.db.payments[j];
    assert PaymentCoherent(p);
    assert p.proof.Some? ==> p.proof.value in Proofs(w.db);
  }
  // ---- BR-02 and BR-03 ----

  /** Every pickup was asked for with the household, the type and the safety check it has. */
  lemma {:induction false} PickupsAreAskedFor(now: Time, es: seq<Event>, i: Id)
    requires i in Run(Init(now), es).db.pickups
    ensures var p := Run(Init(now), es).db.pickups[i];
      exists o :: Start(o, CreatePickup(p.household, p.kind, p.safetyCheck)) in es
  {
    if es != [] {
      var before, e := es[..|es| - 1], es[|es| - 1];
      PickupChangesAreAsked(now, before, e, i);
      var p := Run(Init(now), es).db.pickups[i];
      if i in Run(Init(now), before).db.pickups {
        PickupsAreAskedFor(now, before, i);
        var o :| Start(o, CreatePickup(p.household, p.kind, p.safetyCheck)) in before;
        assert Start(o, CreatePickup(p.household, p.kind, p.safetyCheck)) in es;
      } else {
        AskedIsStarted(before, e.op);
        assert Start(e.op, CreatePickup(p.household, p.kind, p.safetyCheck)) in es;
      }
    }
  }

  /** BR-03 over every run: an electronic pickup that is scheduled or completed was created by a
      request that confirmed the safety check. */
  lemma ElectronicWasChecked(now: Time, es: seq<Event>, i: Id)
    requires var t := Run(Init(now), es).db;
      i in t.pickups && t.pickups[i].kind == Electronic && t.pickups[i].status in {Scheduled, Completed}
    ensures var p := Run(Init(now), es).db.pickups[i];
      exists o :: Start(o, CreatePickup(p.household, Electronic, true)) in es
  {
    PickupsAreAskedFor(now, es, i);
    Reachable(now, es);
    SafeIfScheduled(Run(Init(now), es), i);
    var p := Run(Init(now), es).db.pickups[i];
    var o :| Start(o, CreatePickup(p.household, p.kind, p.safetyCheck)) in es;
    assert Start(o, CreatePickup(p.household, Electronic, true)) in es;
  }

  lemma SafeIfScheduled(w: World, i: Id)
    requires Inv(w) && i in w.db.pickups && w.db.pickups[i].kind == Electronic
    requires w.db.pickups[i].status in {Scheduled, Completed}
    ensures w.db.pickups[i].safetyCheck
  {
    assert PickupCoherent(w.db.pickups[i]);
  }

  /** Rows are from the past and have dates after their creation, and so have the snapshots of
      a Schedule past its checks. */
  ghost predicate Dated(w: World) {
    && (forall i | i in w.db.pickups :: var p := w.db.pickups[i];
          p.createdAt <= w.now && (p.pickupDate.Some? ==> p.createdAt <= p.pickupDate.value))
    && (forall o | o in w.ops && w.ops[o].ScheduleChecking? :: w.ops[o].snap.createdAt <= w.now)
    && (forall o | o in w.ops && w.ops[o].ScheduleUpdating? :: w.ops[o].snap.createdAt <= w.ops[o].date)
  }

  /** A Schedule comes to its check with a row of the table, and past it with a date to come. */
  lemma ScheduleMovesOn(w: World, e: Event, o: OpId)
    requires Inv(w) && Dated(w) && o in Next(w, e).ops
    ensures var op := Next(w, e).ops[o];
      && (op.ScheduleChecking? ==> op.snap.createdAt <= w.now)
      && (op.ScheduleUpdating? ==> op.snap.createdAt <= op.date)
  {
    EventParts(w, e);
    hide Inv, Next;
  }

  /** The date a Schedule writes lies after the creation of the row it writes. */
  lemma ScheduledLater(w: World, e: Event, i: Id)
    requires Inv(w) && Dated(w) && i in w.db.pickups && i in Next(w, e).db.pickups
    ensures var q := Next(w, e).db.pickups[i];
      q.createdAt == w.db.pickups[i].createdAt && (q.pickupDate.Some? ==> q.createdAt <= q.pickupDate.value)
  {
    hide Inv, Next, Keyed, Apply, OpsOk;
    NextDb(w, e);
    AllKeyed(w);
    var a := WriteOf(w, e);
    if a.Some? {
      WriteOnPickup(w.db, w.nextId, w.now, a.value, i);
      if e.Step? {
        EachOpOk(w, e.op);
      }
    }
  }

  lemma DatedStep(w: World, e: Event)
    requires Inv(w) && Dated(w)
    ensures Dated(Next(w, e))
  {
    var v := Next(w, e);
    EventParts(w, e);
    NextDb(w, e);
    AllKeyed(w);
    forall o | o in v.ops ensures (v.ops[o].ScheduleChecking? ==> v.ops[o].snap.createdAt <= w.now)
                               && (v.ops[o].ScheduleUpdating? ==> v.ops[o].snap.createdAt <= v.ops[o].date) {
      ScheduleMovesOn(w, e, o);
    }
    forall i | i in v.db.pickups
      ensures var p := v.db.pickups[i];
        p.createdAt <= w.now && (p.pickupDate.Some? ==> p.createdAt <= p.pickupDate.value)
    {
      if i in w.db.pickups {
        ScheduledLater(w, e, i);
      } else {
        WriteOnPickup(w.db, w.nextId, w.now, WriteOf(w, e).value, i);
      }
    }
    hide Inv, Next, Keyed, Apply, WriteOf, Resume, Act, CallOf, Begin;
  }

  lemma {:induction false} RunDated(now: Time, es: seq<Event>)
    ensures Dated(Run(Init(now), es))
  {
    if es != [] {
      RunDated(now, es[..|es| - 1]);
      Reachable(now, es[..|es| - 1]);
      DatedStep(Run(Init(now), es[..|es| - 1]), es[|es| - 1]);
    }
  }

  /** In every reachable state no pickup is dated before its creation, or created in the future. */
  lemma DatesFollowCreation(now: Time, es: seq<Event>, i: Id)
    requires i in Run(Init(now), es).db.pickups
    ensures var w := Run(Init(now), es); var p := w.db.pickups[i];
      p.createdAt <= w.now && (p.pickupDate.Some? ==> p.createdAt <= p.pickupDate.value)
  {
    RunDated(now, es);
  }

  // ---- BR-06 ----

  /** A Confirm without a file is refused from its start on, and none of its steps changes the
      tables, the store or a counter. */
  lemma NoFileNoEffect(now: Time, es: seq<Event>, o: OpId, id: Id, ok: bool)
    requires Asked(es, o) == Some(Confirm(id, false))
    ensures var w := Run(Init(now), es); var v := Next(w, Step(o, ok));
      && o in w.ops && w.ops[o] == Returned(Refused(Validation)) && v.ops == w.ops
      && v.db == w.db && v.objects == w.objects && v.counters == w.counters
  {
    RunServes(now, es);
    hide Run, Asked;
  }
}

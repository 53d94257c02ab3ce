/** Each request from its start to its answer, when nothing else runs and no call fails; and
    what a failed call does. */
module Requests {
  import opened Domain
  import opened Sql
  import opened Integrity
  import opened Machine
  import opened Invariant

  /** Operation `o` starts with request `r` and makes `n` steps. */
  function Alone(w: World, o: OpId, r: Request, n: nat): World {
    if n == 0 then Next(w, Start(o, r)) else Next(Alone(w, o, r, n - 1), Step(o, true))
  }

  /** The operation has answered with an error, and tables and store are as they were. */
  predicate Refuses(w: World, v: World, o: OpId, e: Error) {
    o in v.ops && v.ops[o] == Returned(Refused(e)) && v.db == w.db && v.objects == w.objects
  }

  /** A payment of the household is pending. */
  predicate InDebt(t: Tables, household: Id) {
    exists j | j in t.payments :: t.payments[j].household == household && t.payments[j].status == PaymentPending
  }

  /** The pickup has a payment. */
  predicate Billed(t: Tables, pickup: Id) {
    exists j | j in t.payments :: t.payments[j].waste == pickup
  }

  /** The payment that a pickup owes: 100000.00 for electronic waste, 50000.00 for all other. */
  function Bill(id: Id, pickup: Pickup, now: Time): Payment {
    Payment(id, pickup.household, pickup.id, if pickup.kind == Electronic then 100_000_00 else 50_000_00,
            None, PaymentPending, None, now, now)
  }

  // ---- single steps ----

  lemma Starts(w: World, o: OpId, r: Request)
    requires o !in w.ops
    ensures var v := Next(w, Start(o, r));
      && v.db == w.db && v.objects == w.objects && v.now == w.now && v.nextId == Max(w.nextId, Mentioned(r))
      && o in v.ops && v.ops[o] == Begin(w, r)
  {
  }

  /** A request that names a row, or nothing unknown, leaves the next uuid as it is. */
  lemma StartsWell(w: World, o: OpId, r: Request)
    requires Inv(w) && o !in w.ops
    ensures var v := Next(w, Start(o, r));
      && Inv(v) && v.db == w.db && v.objects == w.objects && v.now == w.now
      && o in v.ops && v.ops[o] == Begin(w, r)
      && (Mentioned(r) <= w.nextId ==> v.nextId == w.nextId)
  {
    Starts(w, o, r);
    NextInv(w, Start(o, r));
  }

  lemma PickupsAreKeyed(w: World)
    requires Inv(w)
    ensures forall i | i in w.db.pickups :: w.db.pickups[i].id == i && w.db.pickups[i].household in w.db.households
  {
  }

  /** Ids of rows, and households of pickups, are below the next uuid. */
  lemma OneAhead(w: World, i: Id, waste: Id)
    requires Inv(w)
    ensures i in w.db.households || i in w.db.pickups || i in w.db.payments ==> i < w.nextId
    ensures waste in w.db.pickups ==> w.db.pickups[waste].household < w.nextId
    ensures w.nextId + 1 !in w.db.pickups && w.nextId + 1 !in w.db.payments
  {
  }

  lemma KeyAhead(w: World, k: Key)
    requires Inv(w) && w.nextId <= k.nonce
    ensures k !in w.objects
  {
  }

  /** A read or a local step. */
  lemma Reads(w: World, o: OpId)
    requires o in w.ops
    requires var c := CallOf(w.ops[o], w.nextId); !c.Db? && !c.PutObject? && !c.DeleteObject?
    ensures var v := Next(w, Step(o, true));
      && v.db == w.db && v.objects == w.objects && v.now == w.now && v.nextId == w.nextId + 1
      && o in v.ops && v.ops[o] == Resume(w, w.ops[o], Perform(w, CallOf(w.ops[o], w.nextId)).1)
  {
  }

  lemma Writes(w: World, o: OpId)
    requires o in w.ops && CallOf(w.ops[o], w.nextId).Db?
    ensures var v := Next(w, Step(o, true)); var (u, r) := Apply(w.db, w.now, CallOf(w.ops[o], w.nextId).write);
      && v.db == u && v.objects == w.objects && v.now == w.now && v.nextId == w.nextId + 1
      && o in v.ops && v.ops[o] == Resume(w, w.ops[o], Wrote(r))
  {
  }

  /** An operation that has answered stays as it is. */
  lemma Rests(w: World, o: OpId)
    requires o in w.ops && w.ops[o].Returned?
    ensures var v := Next(w, Step(o, true));
      v.db == w.db && v.objects == w.objects && v.now == w.now && o in v.ops && v.ops[o] == w.ops[o]
  {
  }

  /** Once it has answered, it makes no difference how many steps are left. */
  lemma {:induction false} RestsOn(w: World, o: OpId, r: Request, k: nat, n: nat)
    requires k <= n && o in Alone(w, o, r, k).ops && Alone(w, o, r, k).ops[o].Returned?
    ensures var v, u := Alone(w, o, r, k), Alone(w, o, r, n);
      u.db == v.db && u.objects == v.objects && u.now == v.now && o in u.ops && u.ops[o] == v.ops[o]
  {
    if k < n {
      RestsOn(w, o, r, k, n - 1);
      Rests(Alone(w, o, r, n - 1), o);
    }
  }

  lemma One(w: World, o: OpId, r: Request, k: nat)
    ensures Alone(w, o, r, k + 1) == Next(Alone(w, o, r, k), Step(o, true))
  {
  }

  /** Three steps at once. */
  lemma Three(w: World, o: OpId, r: Request, k: nat)
    ensures Alone(w, o, r, k + 3) == Next(Next(Next(Alone(w, o, r, k), Step(o, true)), Step(o, true)), Step(o, true))
    ensures Alone(w, o, r, 0) == Next(w, Start(o, r))
  {
    assert Alone(w, o, r, k + 2) == Next(Alone(w, o, r, k + 1), Step(o, true));
  }

  lemma Counts(w: World, o: OpId)
    requires o in w.ops
    requires var op := w.ops[o];
      op.CreateCounting? || op.CompleteCounting? || op.CancelCounting? || op.PayCounting? || op.ConfirmCounting?
    ensures var op := w.ops[o]; var v := Next(w, Step(o, true));
      && v.db == w.db && v.objects == w.objects && v.now == w.now && o in v.ops
      && v.ops[o] == Returned(if op.PayCounting? || op.ConfirmCounting? then PaymentReturned(op.due)
                              else PickupReturned(op.row))
  {
  }

  // ---- pickups ----

  lemma CreateChecks(w: World, o: OpId)
    requires o in w.ops && w.ops[o].CreateChecking?
    ensures var op := w.ops[o]; var v := Next(w, Step(o, true));
      && v.db == w.db && v.objects == w.objects && v.now == w.now && v.nextId == w.nextId + 1 && o in v.ops
      && if InDebt(w.db, op.household) then v.ops[o] == Returned(Refused(Conflict))
         else v.ops[o] == CreateInserting(op.household, op.kind, op.safetyCheck, w.db.spent)
  {
  }

  /** The row inserted has the fields asked for and the time of the insert. */
  lemma CreateInserts(w: World, o: OpId)
    requires o in w.ops && w.ops[o].CreateInserting?
    ensures var op := w.ops[o]; var v := Next(w, Step(o, true));
      && v.objects == w.objects && v.now == w.now && o in v.ops
      && if op.household !in w.db.households then v.db == w.db && v.ops[o] == Returned(Refused(NotFound))
         else
           var p := Pickup(w.nextId, op.household, op.kind, Pending, None, op.safetyCheck, w.now, w.now);
           v.db == w.db.(pickups := w.db.pickups[w.nextId := p]) && v.ops[o] == CreateCounting(p)
  {
  }

  /** Check, insert and count. */
  lemma CreateAnswers(w: World, o: OpId)
    requires Inv(w) && o in w.ops && w.ops[o].CreateChecking?
    ensures var CreateChecking(h, kind, safetyCheck) := w.ops[o];
      var v := Next(Next(Next(w, Step(o, true)), Step(o, true)), Step(o, true));
      if InDebt(w.db, h) then Refuses(w, v, o, Conflict)
      else if h !in w.db.households then Refuses(w, v, o, NotFound)
      else
        var p := Pickup(w.nextId + 1, h, kind, Pending, None, safetyCheck, w.now, w.now);
        && o in v.ops && v.ops[o] == Returned(PickupReturned(p)) && v.objects == w.objects
        && v.db == w.db.(pickups := w.db.pickups[p.id := p])
  {
    hide Inv, Next, InDebt;
    var v1 := Next(w, Step(o, true));
    var v2 := Next(v1, Step(o, true));
    CreateChecks(w, o);
    if v1.ops[o].Returned? {
      Rests(v1, o);
      Rests(v2, o);
    } else {
      CreateInserts(v1, o);
      if v2.ops[o].Returned? { Rests(v2, o); } else { Counts(v2, o); }
    }
  }

  /** BR-01: Conflict exactly if a payment of the household is pending, then NotFound exactly if
      there is no such household; otherwise a pending pickup with the fields asked for. */
  lemma CreateAlone(w: World, o: OpId, h: Id, kind: WasteType, safetyCheck: bool)
    requires Inv(w) && o !in w.ops
    ensures var v := Alone(w, o, CreatePickup(h, kind, safetyCheck), 3);
      if InDebt(w.db, h) then Refuses(w, v, o, Conflict)
      else if h !in w.db.households then Refuses(w, v, o, NotFound)
      else
        var p := Pickup(w.nextId + 1, h, kind, Pending, None, safetyCheck, w.now, w.now);
        && o in v.ops && v.ops[o] == Returned(PickupReturned(p)) && p.id !in w.db.pickups
        && v.db == w.db.(pickups := w.db.pickups[p.id := p]) && v.objects == w.objects
  {
    hide Inv, Next, Alone, InDebt;
    OneAhead(w, h, h);
    var r := CreatePickup(h, kind, safetyCheck);
    Three(w, o, r, 0);
    StartsWell(w, o, r);
    CreateAnswers(Next(w, Start(o, r)), o);
  }

  lemma ScheduleReads(w: World, o: OpId)
    requires o in w.ops && w.ops[o].ScheduleReading?
    ensures var ScheduleReading(id, date) := w.ops[o]; var v := Next(w, Step(o, true));
      && v.db == w.db && v.objects == w.objects && v.now == w.now && o in v.ops
      && v.ops[o] == (if id !in w.db.pickups then Returned(Refused(NotFound))
                      else if w.db.pickups[id].status != Pending then Returned(Refused(Conflict))
                      else if w.db.pickups[id].kind == Electronic && !w.db.pickups[id].safetyCheck then
                        Returned(Refused(BusinessRule))
                      else ScheduleChecking(id, date, w.db.pickups[id]))
  {
  }

  lemma ScheduleChecks(w: World, o: OpId)
    requires o in w.ops && w.ops[o].ScheduleChecking?
    ensures var ScheduleChecking(id, date, snap) := w.ops[o]; var v := Next(w, Step(o, true));
      && v.db == w.db && v.objects == w.objects && v.now == w.now && o in v.ops
      && v.ops[o] == if date < w.now then Returned(Refused(Validation)) else ScheduleUpdating(id, date, snap)
  {
  }

  lemma ScheduleWrites(w: World, o: OpId)
    requires o in w.ops && w.ops[o].ScheduleUpdating?
    requires w.ops[o].id in w.db.pickups && w.db.pickups[w.ops[o].id].status == Pending
    ensures var ScheduleUpdating(id, date, snap) := w.ops[o]; var v := Next(w, Step(o, true));
      && v.objects == w.objects && o in v.ops
      && v.ops[o] == Returned(PickupReturned(snap.(status := Scheduled, pickupDate := Some(date))))
      && v.db == w.db.(pickups := w.db.pickups[id := w.db.pickups[id].(
           status := Scheduled, pickupDate := Some(date), updatedAt := w.now)])
  {
    hide Next, Exec;
    Writes(w, o);
    UpdateOneRow(w.db, w.ops[o].id, {Pending}, Scheduled, Some(w.ops[o].date), w.now);
  }

  /** Read, check of the date, and update. */
  lemma ScheduleAnswers(w: World, o: OpId)
    requires o in w.ops && w.ops[o].ScheduleReading?
    ensures var ScheduleReading(id, date) := w.ops[o];
      var v := Next(Next(Next(w, Step(o, true)), Step(o, true)), Step(o, true));
      if id !in w.db.pickups then Refuses(w, v, o, NotFound)
      else
        var p := w.db.pickups[id];
        if p.status != Pending then Refuses(w, v, o, Conflict)
        else if p.kind == Electronic && !p.safetyCheck then Refuses(w, v, o, BusinessRule)
        else if date < w.now then Refuses(w, v, o, Validation)
        else
          var q := p.(status := Scheduled, pickupDate := Some(date));
          && o in v.ops && v.ops[o] == Returned(PickupReturned(q)) && v.objects == w.objects
          && v.db == w.db.(pickups := w.db.pickups[id := q.(updatedAt := w.now)])
  {
    hide Next;
    var v1 := Next(w, Step(o, true));
    var v2 := Next(v1, Step(o, true));
    ScheduleReads(w, o);
    if v1.ops[o].Returned? {
      Rests(v1, o);
      Rests(v2, o);
    } else {
      ScheduleChecks(v1, o);
      if v2.ops[o].Returned? { Rests(v2, o); } else { ScheduleWrites(v2, o); }
    }
  }

  /** BR-02 and BR-03: NotFound exactly for an unknown id, then Conflict exactly if the row is not
      pending, then BusinessRule exactly for electronic waste without safety check, then
      Validation exactly for a date in the past; otherwise the row is scheduled at the date. */
  lemma ScheduleAlone(w: World, o: OpId, id: Id, date: Time)
    requires Inv(w) && o !in w.ops
    ensures var v := Alone(w, o, Schedule(id, date), 3);
      if id !in w.db.pickups then Refuses(w, v, o, NotFound)
      else
        var p := w.db.pickups[id];
        if p.status != Pending then Refuses(w, v, o, Conflict)
        else if p.kind == Electronic && !p.safetyCheck then Refuses(w, v, o, BusinessRule)
        else if date < w.now then Refuses(w, v, o, Validation)
        else
          var q := p.(status := Scheduled, pickupDate := Some(date));
          && o in v.ops && v.ops[o] == Returned(PickupReturned(q))
          && v.db == w.db.(pickups := w.db.pickups[id := q.(updatedAt := w.now)]) && v.objects == w.objects
  {
    hide Inv, Next, Alone;
    var r := Schedule(id, date);
    Three(w, o, r, 0);
    StartsWell(w, o, r);
    ScheduleAnswers(Next(w, Start(o, r)), o);
  }

  lemma CompleteReads(w: World, o: OpId)
    requires o in w.ops && w.ops[o].CompleteReading?
    ensures var id := w.ops[o].id; var v := Next(w, Step(o, true));
      && v.db == w.db && v.objects == w.objects && v.now == w.now && v.nextId == w.nextId + 1 && o in v.ops
      && v.ops[o] == (if id !in w.db.pickups then Returned(Refused(NotFound))
                      else if w.db.pickups[id].status != Scheduled then Returned(Refused(Conflict))
                      else CompleteBeginning(id, w.db.pickups[id]))
  {
  }

  lemma CompleteBegins(w: World, o: OpId)
    requires o in w.ops && w.ops[o].CompleteBeginning?
    ensures var op := w.ops[o]; var v := Next(w, Step(o, true));
      && v.db == w.db && v.objects == w.objects && v.now == w.now && o in v.ops
      && v.ops[o] == CompleteWriting(op.id, op.snap, w.nextId, w.now)
  {
  }

  /** The transaction on the row that was read. */
  lemma CompleteWrites(w: World, o: OpId)
    requires o in w.ops && w.ops[o].CompleteWriting?
    requires var op := w.ops[o];
      && op.id in w.db.pickups && w.db.pickups[op.id] == op.snap && op.snap.status == Scheduled && op.snap.id == op.id
      && op.snap.household in w.db.households
    ensures var CompleteWriting(id, p, payment, stamp) := w.ops[o]; var v := Next(w, Step(o, true));
      && v.objects == w.objects && v.now == w.now && o in v.ops
      && if Billed(w.db, id) || InDebt(w.db, p.household) then v.db == w.db && v.ops[o] == Returned(Refused(Conflict))
         else
           && v.ops[o] == CompleteCounting(p.(status := Completed))
           && v.db == w.db.(
                pickups := w.db.pickups[id := p.(status := Completed, updatedAt := stamp)],
                payments := w.db.payments[payment := Bill(payment, p, stamp)],
                spent := w.db.spent + {payment})
  {
    Writes(w, o);
    CompleteTxCases(w.db, w.now, CallOf(w.ops[o], w.nextId).write);
    hide Next, Apply;
  }

  /** Begin, transaction and count. */
  lemma CompleteRuns(w: World, o: OpId)
    requires o in w.ops && w.ops[o].CompleteBeginning?
    requires var op := w.ops[o];
      && op.id in w.db.pickups && w.db.pickups[op.id] == op.snap && op.snap.status == Scheduled && op.snap.id == op.id
      && op.snap.household in w.db.households
    ensures var CompleteBeginning(id, p) := w.ops[o];
      var v := Next(Next(Next(w, Step(o, true)), Step(o, true)), Step(o, true));
      && v.objects == w.objects && o in v.ops
      && if Billed(w.db, id) || InDebt(w.db, p.household) then v.db == w.db && v.ops[o] == Returned(Refused(Conflict))
         else
           && v.ops[o] == Returned(PickupReturned(p.(status := Completed)))
           && v.db == w.db.(
                pickups := w.db.pickups[id := p.(status := Completed, updatedAt := w.now)],
                payments := w.db.payments[w.nextId := Bill(w.nextId, p, w.now)],
                spent := w.db.spent + {w.nextId})
  {
    hide Next;
    var v1 := Next(w, Step(o, true));
    var v2 := Next(v1, Step(o, true));
    CompleteBegins(w, o);
    CompleteWrites(v1, o);
    if v2.ops[o].Returned? { Rests(v2, o); } else { Counts(v2, o); }
  }

  /** The read and, if the row is scheduled, all the rest. */
  lemma CompleteAnswers(w: World, o: OpId)
    requires Inv(w) && o in w.ops && w.ops[o].CompleteReading?
    ensures var id := w.ops[o].id;
      var v := Next(Next(Next(Next(w, Step(o, true)), Step(o, true)), Step(o, true)), Step(o, true));
      if id !in w.db.pickups then Refuses(w, v, o, NotFound)
      else
        var p := w.db.pickups[id];
        if p.status != Scheduled || Billed(w.db, id) || InDebt(w.db, p.household) then Refuses(w, v, o, Conflict)
        else
          var bill := Bill(w.nextId + 1, p, w.now);
          && o in v.ops && v.ops[o] == Returned(PickupReturned(p.(status := Completed))) && v.objects == w.objects
          && v.db == w.db.(pickups := w.db.pickups[id := p.(status := Completed, updatedAt := w.now)],
                           payments := w.db.payments[bill.id := bill], spent := w.db.spent + {bill.id})
  {
    PickupsAreKeyed(w);
    hide Inv, Next, Billed, InDebt;
    var v1 := Next(w, Step(o, true));
    CompleteReads(w, o);
    if v1.ops[o].Returned? {
      var v2 := Next(v1, Step(o, true));
      Rests(v1, o);
      Rests(v2, o);
      Rests(Next(v2, Step(o, true)), o);
    } else {
      CompleteRuns(v1, o);
    }
  }

  /** BR-05: NotFound exactly for an unknown id, then Conflict exactly if the row is not scheduled,
      has a payment, or its household has a pending one; otherwise the row is completed and a
      pending payment of 100000.00 for electronic waste, or 50000.00, is inserted with it. */
  lemma CompleteAlone(w: World, o: OpId, id: Id)
    requires Inv(w) && o !in w.ops
    ensures var v := Alone(w, o, Complete(id), 4);
      if id !in w.db.pickups then Refuses(w, v, o, NotFound)
      else
        var p := w.db.pickups[id];
        if p.status != Scheduled || Billed(w.db, id) || InDebt(w.db, p.household) then Refuses(w, v, o, Conflict)
        else
          var bill := Bill(w.nextId + 1, p, w.now);
          && o in v.ops && v.ops[o] == Returned(PickupReturned(p.(status := Completed))) && v.objects == w.objects
          && bill.id !in w.db.payments
          && v.db == w.db.(pickups := w.db.pickups[id := p.(status := Completed, updatedAt := w.now)],
                           payments := w.db.payments[bill.id := bill], spent := w.db.spent + {bill.id})
  {
    hide Inv, Next, Alone, InDebt, Billed;
    OneAhead(w, id, id);
    var r := Complete(id);
    Three(w, o, r, 0);
    One(w, o, r, 3);
    StartsWell(w, o, r);
    CompleteAnswers(Next(w, Start(o, r)), o);
  }

  lemma CancelUpdates(w: World, o: OpId)
    requires o in w.ops && w.ops[o].CancelUpdating?
    ensures var id := w.ops[o].id; var v := Next(w, Step(o, true));
      var hit := id in w.db.pickups && w.db.pickups[id].status in {Pending, Scheduled};
      && v.objects == w.objects && v.now == w.now && o in v.ops
      && v.ops[o].CancelReading? && v.ops[o].id == id && v.ops[o].done == hit
      && v.db == if hit then
                   w.db.(pickups := w.db.pickups[id := w.db.pickups[id].(status := Canceled, updatedAt := w.now)])
                 else w.db
  {
    hide Next, Exec;
    Writes(w, o);
    UpdateOneRow(w.db, w.ops[o].id, {Pending, Scheduled}, Canceled, None, w.now);
  }

  lemma CancelReads(w: World, o: OpId)
    requires o in w.ops && w.ops[o].CancelReading?
    ensures var op := w.ops[o]; var v := Next(w, Step(o, true));
      && v.db == w.db && v.objects == w.objects && v.now == w.now && o in v.ops
      && v.ops[o] == if op.id !in w.db.pickups then Returned(Refused(NotFound))
                     else if op.done then CancelCounting(w.db.pickups[op.id])
                     else Returned(CancelRefused(w.db.pickups[op.id].status == Completed))
  {
  }

  /** Update, read and count. */
  lemma CancelAnswers(w: World, o: OpId)
    requires o in w.ops && w.ops[o].CancelUpdating?
    ensures var id := w.ops[o].id;
      var v := Next(Next(Next(w, Step(o, true)), Step(o, true)), Step(o, true));
      if id !in w.db.pickups then Refuses(w, v, o, NotFound)
      else
        var p := w.db.pickups[id];
        if p.status in {Completed, Canceled} then
          && o in v.ops && v.ops[o] == Returned(CancelRefused(p.status == Completed))
          && v.db == w.db && v.objects == w.objects
        else
          var q := p.(status := Canceled, updatedAt := w.now);
          && o in v.ops && v.ops[o] == Returned(PickupReturned(q))
          && v.db == w.db.(pickups := w.db.pickups[id := q]) && v.objects == w.objects
  {
    hide Next;
    var v1 := Next(w, Step(o, true));
    var v2 := Next(v1, Step(o, true));
    CancelUpdates(w, o);
    CancelReads(v1, o);
    if v2.ops[o].Returned? { Rests(v2, o); } else { Counts(v2, o); }
  }

  /** NotFound exactly for an unknown id, then a conflict exactly if the row is completed or
      canceled, which names that status; otherwise the row is canceled. */
  lemma CancelAlone(w: World, o: OpId, id: Id)
    requires Inv(w) && o !in w.ops
    ensures var v := Alone(w, o, Cancel(id), 3);
      if id !in w.db.pickups then Refuses(w, v, o, NotFound)
      else
        var p := w.db.pickups[id];
        if p.status in {Completed, Canceled} then
          && o in v.ops && v.ops[o] == Returned(CancelRefused(p.status == Completed))
          && v.db == w.db && v.objects == w.objects
        else
          var q := p.(status := Canceled, updatedAt := w.now);
          && o in v.ops && v.ops[o] == Returned(PickupReturned(q))
          && v.db == w.db.(pickups := w.db.pickups[id := q]) && v.objects == w.objects
  {
    hide Inv, Next, Alone;
    var r := Cancel(id);
    Three(w, o, r, 0);
    StartsWell(w, o, r);
    CancelAnswers(Next(w, Start(o, r)), o);
  }

  // ---- payments ----

  lemma PayReads(w: World, o: OpId)
    requires o in w.ops && w.ops[o].PayReading?
    ensures var PayReading(h, waste) := w.ops[o]; var v := Next(w, Step(o, true));
      && v.db == w.db && v.objects == w.objects && v.now == w.now && v.nextId == w.nextId + 1 && o in v.ops
      && v.ops[o] == (if waste !in w.db.pickups then Returned(Refused(NotFound))
                      else if w.db.pickups[waste].household != h then Returned(Refused(BusinessRule))
                      else PayInserting(h, waste,
                                        if w.db.pickups[waste].kind == Electronic then 100_000_00 else 50_000_00))
  {
  }

  /** The CHECK of the amount, the unique indexes, the foreign keys, in this order. */
  lemma PayInserts(w: World, o: OpId)
    requires o in w.ops && w.ops[o].PayInserting?
    ensures var PayInserting(h, waste, amount) := w.ops[o]; var v := Next(w, Step(o, true));
      && v.objects == w.objects && v.now == w.now && o in v.ops
      && if amount <= 0 then v.db == w.db && v.ops[o] == Returned(Refused(Validation))
         else if Billed(w.db, waste) || InDebt(w.db, h) then v.db == w.db && v.ops[o] == Returned(Refused(Conflict))
         else if h !in w.db.households || waste !in w.db.pickups then
           v.db == w.db && v.ops[o] == Returned(Refused(NotFound))
         else
           var bill := Payment(w.nextId, h, waste, amount, None, PaymentPending, None, w.now, w.now);
           && v.ops[o] == PayCounting(bill)
           && v.db == w.db.(payments := w.db.payments[w.nextId := bill], spent := w.db.spent + {w.nextId})
  {
  }

  /** Read, insert and count. */
  lemma PayAnswers(w: World, o: OpId)
    requires Inv(w) && o in w.ops && w.ops[o].PayReading?
    ensures var PayReading(h, waste) := w.ops[o];
      var v := Next(Next(Next(w, Step(o, true)), Step(o, true)), Step(o, true));
      if waste !in w.db.pickups then Refuses(w, v, o, NotFound)
      else if w.db.pickups[waste].household != h then Refuses(w, v, o, BusinessRule)
      else if Billed(w.db, waste) || InDebt(w.db, h) then Refuses(w, v, o, Conflict)
      else
        var bill := Bill(w.nextId + 1, w.db.pickups[waste], w.now);
        && o in v.ops && v.ops[o] == Returned(PaymentReturned(bill)) && v.objects == w.objects
        && v.db == w.db.(payments := w.db.payments[bill.id := bill], spent := w.db.spent + {bill.id})
  {
    PickupsAreKeyed(w);
    hide Inv, Next, InDebt, Billed;
    var v1 := Next(w, Step(o, true));
    var v2 := Next(v1, Step(o, true));
    PayReads(w, o);
    if v1.ops[o].Returned? {
      Rests(v1, o);
      Rests(v2, o);
    } else {
      PayInserts(v1, o);
      if v2.ops[o].Returned? { Rests(v2, o); } else { Counts(v2, o); }
    }
  }

  /** NotFound exactly for an unknown pickup, then BusinessRule exactly for a pickup of another
      household, then Conflict exactly if the pickup has a payment or the household a pending
      one; otherwise a pending payment of the amount for the pickup's type, whatever is claimed. */
  lemma PayAlone(w: World, o: OpId, h: Id, waste: Id, claimed: Money)
    requires Inv(w) && o !in w.ops
    ensures var v := Alone(w, o, CreatePayment(h, waste, claimed), 3);
      if waste !in w.db.pickups then Refuses(w, v, o, NotFound)
      else if w.db.pickups[waste].household != h then Refuses(w, v, o, BusinessRule)
      else if Billed(w.db, waste) || InDebt(w.db, h) then Refuses(w, v, o, Conflict)
      else
        var bill := Bill(w.nextId + 1, w.db.pickups[waste], w.now);
        && o in v.ops && v.ops[o] == Returned(PaymentReturned(bill)) && v.objects == w.objects
        && bill.id !in w.db.payments
        && v.db == w.db.(payments := w.db.payments[bill.id := bill], spent := w.db.spent + {bill.id})
  {
    hide Inv, Next, Alone, InDebt, Billed;
    OneAhead(w, waste, waste);
    var r := CreatePayment(h, waste, claimed);
    Three(w, o, r, 0);
    StartsWell(w, o, r);
    PayAnswers(Next(w, Start(o, r)), o);
  }

  lemma ConfirmReads(w: World, o: OpId)
    requires o in w.ops && w.ops[o].ConfirmReading?
    ensures var id := w.ops[o].id; var v := Next(w, Step(o, true));
      && v.db == w.db && v.objects == w.objects && v.now == w.now && v.nextId == w.nextId + 1 && o in v.ops
      && v.ops[o] == (if id !in w.db.payments then Returned(Refused(NotFound))
                      else if w.db.payments[id].status != PaymentPending then Returned(Refused(Conflict))
                      else ConfirmKeying(id, w.db.payments[id]))
  {
  }

  lemma ConfirmKeys(w: World, o: OpId)
    requires o in w.ops && w.ops[o].ConfirmKeying?
    ensures var op := w.ops[o]; var v := Next(w, Step(o, true));
      && v.db == w.db && v.objects == w.objects && v.now == w.now && o in v.ops
      && v.ops[o] == ConfirmUploading(op.id, op.bill, Key(op.id, w.nextId))
  {
  }

  lemma ConfirmStamps(w: World, o: OpId)
    requires o in w.ops && w.ops[o].ConfirmStamping?
    ensures var op := w.ops[o]; var v := Next(w, Step(o, true));
      && v.db == w.db && v.objects == w.objects && v.now == w.now && o in v.ops
      && v.ops[o] == ConfirmUpdating(op.id, op.bill, op.key, w.now)
  {
  }

  lemma ConfirmPays(w: World, o: OpId)
    requires o in w.ops && w.ops[o].ConfirmUpdating?
    requires w.ops[o].id in w.db.payments && w.db.payments[w.ops[o].id].status == PaymentPending
    ensures var ConfirmUpdating(id, bill, key, paidAt) := w.ops[o]; var v := Next(w, Step(o, true));
      && v.objects == w.objects && v.now == w.now && o in v.ops
      && v.ops[o] == ConfirmCounting(bill.(status := PaymentPaid, paymentDate := Some(paidAt), proof := Some(key)))
      && v.db == w.db.(payments := w.db.payments[id := w.db.payments[id].(
           status := PaymentPaid, paymentDate := Some(paidAt), proof := Some(key), updatedAt := w.now)])
  {
  }

  lemma Uploads(w: World, o: OpId)
    requires o in w.ops && w.ops[o].ConfirmUploading?
    ensures var op := w.ops[o]; var v := Next(w, Step(o, true));
      && v.db == w.db && v.objects == w.objects + {op.key} && v.now == w.now && v.nextId == w.nextId + 1
      && o in v.ops && v.ops[o] == ConfirmStamping(op.id, op.bill, op.key)
  {
  }

  /** From the key to the count. */
  lemma ConfirmRuns(w: World, o: OpId)
    requires o in w.ops && w.ops[o].ConfirmKeying?
    requires var op := w.ops[o];
      op.id in w.db.payments && w.db.payments[op.id] == op.bill && op.bill.status == PaymentPending
    ensures var ConfirmKeying(id, p) := w.ops[o]; var key := Key(id, w.nextId);
      var v2 := Next(Next(w, Step(o, true)), Step(o, true));
      var v := Next(Next(Next(v2, Step(o, true)), Step(o, true)), Step(o, true));
      var q := p.(status := PaymentPaid, paymentDate := Some(w.now), proof := Some(key));
      && o in v.ops && v.ops[o] == Returned(PaymentReturned(q)) && v.objects == w.objects + {key}
      && v.db == w.db.(payments := w.db.payments[id := q.(updatedAt := w.now)])
  {
    hide Next;
    var v1 := Next(w, Step(o, true));
    var v2 := Next(v1, Step(o, true));
    var v3 := Next(v2, Step(o, true));
    ConfirmKeys(w, o);
    Uploads(v1, o);
    ConfirmStamps(v2, o);
    ConfirmPays(v3, o);
    Counts(Next(v3, Step(o, true)), o);
  }

  /** The read and, if the payment is pending, all the rest. */
  lemma ConfirmAnswers(w: World, o: OpId)
    requires Inv(w) && o in w.ops && w.ops[o].ConfirmReading?
    ensures var id := w.ops[o].id;
      var v3 := Next(Next(Next(w, Step(o, true)), Step(o, true)), Step(o, true));
      var v := Next(Next(Next(v3, Step(o, true)), Step(o, true)), Step(o, true));
      if id !in w.db.payments then Refuses(w, v, o, NotFound)
      else if w.db.payments[id].status != PaymentPending then Refuses(w, v, o, Conflict)
      else
        var key := Key(id, w.nextId + 1);
        var q := w.db.payments[id].(status := PaymentPaid, paymentDate := Some(w.now), proof := Some(key));
        && o in v.ops && v.ops[o] == Returned(PaymentReturned(q)) && v.objects == w.objects + {key}
        && v.db == w.db.(payments := w.db.payments[id := q.(updatedAt := w.now)])
  {
    hide Inv, Next;
    var v1 := Next(w, Step(o, true));
    ConfirmReads(w, o);
    if v1.ops[o].Returned? { FiveRests(v1, o); } else { ConfirmRuns(v1, o); }
  }

  lemma FiveRests(w: World, o: OpId)
    requires o in w.ops && w.ops[o].Returned?
    ensures var v2 := Next(Next(w, Step(o, true)), Step(o, true));
      var v := Next(Next(Next(v2, Step(o, true)), Step(o, true)), Step(o, true));
      v.db == w.db && v.objects == w.objects && o in v.ops && v.ops[o] == w.ops[o]
  {
    hide Next;
    var v1 := Next(w, Step(o, true));
    var v2 := Next(v1, Step(o, true));
    var v3 := Next(v2, Step(o, true));
    Rests(w, o);
    Rests(v1, o);
    Rests(v2, o);
    Rests(v3, o);
    Rests(Next(v3, Step(o, true)), o);
  }

  /** BR-06: Validation exactly without a file, then NotFound exactly for an unknown id, then
      Conflict exactly if the payment is not pending; otherwise it is paid, with a new object in
      the store as its proof. */
  lemma ConfirmAlone(w: World, o: OpId, id: Id, hasFile: bool)
    requires Inv(w) && o !in w.ops
    ensures var v := Alone(w, o, Confirm(id, hasFile), 6);
      if !hasFile then Refuses(w, v, o, Validation)
      else if id !in w.db.payments then Refuses(w, v, o, NotFound)
      else if w.db.payments[id].status != PaymentPending then Refuses(w, v, o, Conflict)
      else
        var key := Key(id, w.nextId + 1);
        var q := w.db.payments[id].(status := PaymentPaid, paymentDate := Some(w.now), proof := Some(key));
        && o in v.ops && v.ops[o] == Returned(PaymentReturned(q))
        && key !in w.objects && v.objects == w.objects + {key}
        && v.db == w.db.(payments := w.db.payments[id := q.(updatedAt := w.now)])
  {
    hide Inv, Next, Alone;
    OneAhead(w, id, id);
    KeyAhead(w, Key(id, w.nextId + 1));
    var r := Confirm(id, hasFile);
    Three(w, o, r, 0);
    Three(w, o, r, 3);
    StartsWell(w, o, r);
    if !hasFile {
      RestsOn(w, o, r, 0, 6);
    } else {
      ConfirmAnswers(Next(w, Start(o, r)), o);
    }
  }

  // ---- the worker ----

  /** The pending organic pickups created more than the cutoff ago. */
  function Due(w: World, cutoff: Time): set<Id> {
    set i | i in w.db.pickups && w.db.pickups[i].kind == Organic && w.db.pickups[i].status == Pending
            && w.db.pickups[i].createdAt < w.now - cutoff
  }

  lemma CycleFinds(w: World, o: OpId, cutoff: Time)
    requires o in w.ops && w.ops[o] == CycleFinding(w.now - cutoff)
    ensures var v := Next(w, Step(o, true)); var due := Due(w, cutoff);
      && v.db == w.db && v.objects == w.objects && v.now == w.now && o in v.ops
      && v.ops[o] == if due == {} then Returned(CycleSucceeded(0)) else CycleCanceling(w.now - cutoff, due)
  {
  }

  lemma CycleCancels(w: World, o: OpId)
    requires o in w.ops && w.ops[o].CycleCanceling?
    ensures var ids := w.ops[o].ids; var v := Next(w, Step(o, true)); var u := Next(v, Step(o, true));
      && v.objects == w.objects && v.db.households == w.db.households && v.db.payments == w.db.payments
      && v.db.pickups.Keys == w.db.pickups.Keys
      && (forall i | i in v.db.pickups ::
            v.db.pickups[i] == if i in ids && w.db.pickups[i].status in {Pending, Scheduled} then
                                 w.db.pickups[i].(status := Canceled, updatedAt := w.now)
                               else w.db.pickups[i])
      && u.db == v.db && u.objects == v.objects && o in u.ops && u.ops[o] == Returned(CycleSucceeded(|ids|))
  {
    Writes(w, o);
    Reads(Next(w, Step(o, true)), o);
    hide Next;
  }

  /** Find, cancel and count. */
  lemma CycleAnswers(w: World, o: OpId, cutoff: Time)
    requires o in w.ops && w.ops[o] == CycleFinding(w.now - cutoff)
    ensures var v := Next(Next(Next(w, Step(o, true)), Step(o, true)), Step(o, true)); var due := Due(w, cutoff);
      && o in v.ops && v.ops[o] == Returned(CycleSucceeded(|due|))
      && v.db.households == w.db.households && v.db.payments == w.db.payments && v.objects == w.objects
      && v.db.pickups.Keys == w.db.pickups.Keys
      && (forall i | i in v.db.pickups ::
            v.db.pickups[i] == if i in due then w.db.pickups[i].(status := Canceled, updatedAt := w.now)
                               else w.db.pickups[i])
  {
    hide Next;
    var v1 := Next(w, Step(o, true));
    CycleFinds(w, o, cutoff);
    if v1.ops[o].Returned? {
      Rests(v1, o);
      Rests(Next(v1, Step(o, true)), o);
    } else {
      CycleCancels(v1, o);
    }
  }

  /** BR-04: a cycle cancels exactly the pending organic pickups created more than the cutoff
      ago, and reports their number. */
  lemma CycleAlone(w: World, o: OpId, cutoff: Time)
    requires o !in w.ops
    ensures var v := Alone(w, o, RunCycle(cutoff), 3); var due := Due(w, cutoff);
      && o in v.ops && v.ops[o] == Returned(CycleSucceeded(|due|))
      && v.db.households == w.db.households && v.db.payments == w.db.payments && v.objects == w.objects
      && v.db.pickups.Keys == w.db.pickups.Keys
      && (forall i | i in v.db.pickups ::
            v.db.pickups[i] == if i in due then w.db.pickups[i].(status := Canceled, updatedAt := w.now)
                               else w.db.pickups[i])
  {
    hide Next, Alone;
    var r := RunCycle(cutoff);
    Three(w, o, r, 0);
    Starts(w, o, r);
    CycleAnswers(Next(w, Start(o, r)), o, cutoff);
  }

  // ---- failed calls ----

  /** Where a call can fail, its failure changes neither tables nor store. The caller is told
      Internal, and a cycle has failed; but a Confirm whose update failed removes its object
      first, and one whose removal failed answers what it was going to answer. */
  lemma FailureIsReported(w: World, o: OpId)
    requires o in w.ops && !CallOf(w.ops[o], w.nextId).Nothing?
    ensures var op := w.ops[o]; var v := Next(w, Step(o, false));
      && v.db == w.db && v.objects == w.objects && o in v.ops
      && if op.CycleFinding? || op.CycleCanceling? then v.ops[o] == Returned(CycleFailed)
         else if op.ConfirmCleaning? then v.ops[o] == Returned(Refused(op.error)) && op.key in v.leaked
         else if op.ConfirmUpdating? then
           && var u := Next(v, Step(o, true));
           && u.db == w.db && u.objects == w.objects - {op.key} && o in u.ops
           && u.ops[o] == Returned(Refused(Internal))
         else v.ops[o] == Returned(Refused(Internal))
  {
    var v := Next(w, Step(o, false));
    StepParts(w, o, false);
    if w.ops[o].ConfirmUpdating? {
      StepParts(v, o, true);
    }
    hide StepOp;
  }
}

/** A call as the operation that makes it sees it: any number of other operations run, then
    the statement is executed, and the operation is at its next program point. */
module Calls {
  import opened Domain
  import opened Sql
  import opened Integrity
  import opened Machine
  import opened Invariant
  import opened Answers
  import opened Billing
  import opened Backend

  // ---- where each call leads ----

  /** The program point after a call, as a function of what the call returned. */
  lemma FlagMoves(w: World, o: OpId, r: Result<bool>)
    requires o in w.ops && w.ops[o].CreateChecking?
    requires r == Err(Internal) || r == Ok(HasPendingPayment(w.db, w.ops[o].household))
    ensures o in Next(w, Step(o, r.Ok?)).ops
    ensures var op := w.ops[o];
      Next(w, Step(o, r.Ok?)).ops[o] ==
        if r.Err? then Returned(Refused(Internal))
        else if r.value then Returned(Refused(Conflict))
        else CreateInserting(op.household, op.kind, op.safetyCheck, w.db.spent)
  {
  }

  predicate ReadsPickup(op: Op, id: Id) {
    match op
    case ScheduleReading(i, _) => i == id
    case CompleteReading(i) => i == id
    case CancelReading(i, _, _) => i == id
    case PayReading(_, waste) => waste == id
    case _ => false
  }

  function AfterPickupRead(op: Op, r: Result<Pickup>): Op
    requires op.ScheduleReading? || op.CompleteReading? || op.CancelReading? || op.PayReading?
  {
    match r
    case Err(e) => Returned(Refused(e))
    case Ok(p) =>
      match op
      case ScheduleReading(id, date) => AfterScheduleRead(id, date, Some(p))
      case CompleteReading(id) => AfterCompleteRead(id, Some(p))
      case CancelReading(_, done, _) => AfterCancelRead(done, Some(p))
      case PayReading(household, waste) => AfterPayRead(household, waste, Some(p))
  }

  lemma PickupReadMoves(w: World, o: OpId, id: Id, r: Result<Pickup>)
    requires o in w.ops && ReadsPickup(w.ops[o], id)
    requires r == Err(Internal) || r == if id in w.db.pickups then Ok(w.db.pickups[id]) else Err(NotFound)
    ensures o in Next(w, Step(o, r != Err(Internal))).ops
    ensures Next(w, Step(o, r != Err(Internal))).ops[o] == AfterPickupRead(w.ops[o], r)
  {
  }

  function AfterBillRead(id: Id, r: Result<Payment>): Op {
    match r
    case Err(e) => Returned(Refused(e))
    case Ok(p) => AfterConfirmRead(id, Some(p))
  }

  lemma PaymentReadMoves(w: World, o: OpId, r: Result<Payment>)
    requires o in w.ops && w.ops[o].ConfirmReading?
    requires var id := w.ops[o].id;
      r == Err(Internal) || r == if id in w.db.payments then Ok(w.db.payments[id]) else Err(NotFound)
    ensures o in Next(w, Step(o, r != Err(Internal))).ops
    ensures Next(w, Step(o, r != Err(Internal))).ops[o] == AfterBillRead(w.ops[o].id, r)
  {
  }

  lemma InsertPickupMoves(w: World, o: OpId, r: Result<Pickup>)
    requires o in w.ops && w.ops[o].CreateInserting?
    requires var op := w.ops[o];
      r == Err(Internal) || r == if op.household in w.db.households then
                                   Ok(NewPickup(w.nextId, op.household, op.kind, op.safetyCheck, w.now))
                                 else Err(NotFound)
    ensures o in Next(w, Step(o, r != Err(Internal))).ops
    ensures Next(w, Step(o, r != Err(Internal))).ops[o] ==
              match r
              case Err(e) => Returned(Refused(e))
              case Ok(p) => CreateCounting(p)
  {
  }

  lemma InsertPaymentMoves(w: World, o: OpId, r: Result<Payment>)
    requires o in w.ops && w.ops[o].PayInserting?
    requires var op := w.ops[o]; var bad := PaymentViolation(w.db, op.household, op.waste, op.amount);
      r == Err(Internal) || r == if bad.Some? then Err(PaymentCreateError(bad.value))
                                 else Ok(NewPayment(w.nextId, op.household, op.waste, op.amount, w.now))
    ensures o in Next(w, Step(o, r != Err(Internal))).ops
    ensures Next(w, Step(o, r != Err(Internal))).ops[o] ==
              match r
              case Err(e) => Returned(Refused(e))
              case Ok(p) => PayCounting(p)
  {
  }

  lemma ScheduleMoves(w: World, o: OpId, err: Option<Error>)
    requires o in w.ops && w.ops[o].ScheduleUpdating?
    requires var id := w.ops[o].id; var admitted := id in w.db.pickups && w.db.pickups[id].status == Pending;
      err == Some(Internal) || err == if admitted then None else Some(Conflict)
    ensures o in Next(w, Step(o, err != Some(Internal))).ops
    ensures var op := w.ops[o];
      Next(w, Step(o, err != Some(Internal))).ops[o] ==
        match err
        case Some(e) => Returned(Refused(e))
        case None => Returned(PickupReturned(op.snap.(status := Scheduled, pickupDate := Some(op.date))))
  {
    SingleRow(w.db, w.ops[o].id, {Pending});
  }

  lemma CompleteMoves(w: World, o: OpId, err: Option<Error>)
    requires o in w.ops && w.ops[o].CompleteWriting?
    requires var op := w.ops[o];
      var bad := PaymentViolation(w.db, op.snap.household, op.id, CanonicalAmount(op.snap.kind));
      || err == Some(Internal)
      || err == (if !(op.id in w.db.pickups && w.db.pickups[op.id].status == Scheduled) then Some(Conflict)
                 else if bad.Some? then Some(PaymentCreateError(bad.value)) else None)
    ensures o in Next(w, Step(o, err != Some(Internal))).ops
    ensures Next(w, Step(o, err != Some(Internal))).ops[o] ==
              match err
              case Some(e) => Returned(Refused(e))
              case None => CompleteCounting(w.ops[o].snap.(status := Completed))
  {
    var op := w.ops[o];
    CompleteTxCases(w.db, w.now, CallOf(op, w.nextId).write);
    StepParts(w, o, err != Some(Internal));
  }

  lemma CancelMoves(w: World, o: OpId, r: Result<bool>)
    requires o in w.ops && w.ops[o].CancelUpdating?
    requires var id := w.ops[o].id;
      r == Err(Internal) || r == Ok(id in w.db.pickups && w.db.pickups[id].status in {Pending, Scheduled})
    ensures o in Next(w, Step(o, r.Ok?)).ops
    ensures Next(w, Step(o, r.Ok?)).ops[o] ==
              match r
              case Err(e) => Returned(Refused(e))
              case Ok(hit) => CancelReading(w.ops[o].id, hit, FindPickup(w.db, w.ops[o].id))
  {
    SingleRow(w.db, w.ops[o].id, {Pending, Scheduled});
  }

  lemma UploadMoves(w: World, o: OpId, ok: bool)
    requires o in w.ops && w.ops[o].ConfirmUploading?
    ensures o in Next(w, Step(o, ok)).ops
    ensures var op := w.ops[o];
      Next(w, Step(o, ok)).ops[o] ==
        if ok then ConfirmStamping(op.id, op.bill, op.key) else Returned(Refused(Internal))
  {
  }

  lemma ConfirmMoves(w: World, o: OpId, err: Option<Error>)
    requires o in w.ops && w.ops[o].ConfirmUpdating?
    requires var id := w.ops[o].id; var pending := id in w.db.payments && w.db.payments[id].status == PaymentPending;
      err == Some(Internal) || err == if pending then None else Some(Conflict)
    ensures o in Next(w, Step(o, err != Some(Internal))).ops
    ensures var op := w.ops[o];
      Next(w, Step(o, err != Some(Internal))).ops[o] ==
        match err
        case Some(e) => ConfirmCleaning(op.key, e)
        case None =>
          ConfirmCounting(op.bill.(status := PaymentPaid, proof := Some(op.key), paymentDate := Some(op.paidAt)))
  {
  }

  lemma CleanMoves(w: World, o: OpId, ok: bool)
    requires o in w.ops && w.ops[o].ConfirmCleaning?
    ensures o in Next(w, Step(o, ok)).ops
    ensures Next(w, Step(o, ok)).ops[o] == Returned(Refused(w.ops[o].error))
  {
  }

  lemma FindMoves(w: World, o: OpId, r: Result<set<Id>>)
    requires o in w.ops && w.ops[o].CycleFinding?
    requires r == Err(Internal) || r == Ok(ExpiredOrganic(w.db, w.ops[o].before))
    ensures o in Next(w, Step(o, r.Ok?)).ops
    ensures Next(w, Step(o, r.Ok?)).ops[o] ==
              if r.Err? then Returned(CycleFailed)
              else if r.value == {} then Returned(CycleSucceeded(0)) else CycleCanceling(w.ops[o].before, r.value)
  {
  }

  lemma BulkMoves(w: World, o: OpId, ok: bool)
    requires o in w.ops && w.ops[o].CycleCanceling?
    ensures o in Next(w, Step(o, ok)).ops
    ensures var ids := w.ops[o].ids;
      Next(w, Step(o, ok)).ops[o] ==
        if ok then CycleCounting(ids, Matching(w.db, ids, {Pending, Scheduled})) else Returned(CycleFailed)
  {
  }

  function AfterClock(op: Op, now: Time): Op
    requires op.ScheduleChecking? || op.ConfirmStamping?
  {
    match op
    case ScheduleChecking(id, date, snap) =>
      if date < now then Returned(Refused(Validation)) else ScheduleUpdating(id, date, snap)
    case ConfirmStamping(id, bill, key) => ConfirmUpdating(id, bill, key, now)
  }

  lemma ClockMoves(w: World, o: OpId)
    requires o in w.ops && (w.ops[o].ScheduleChecking? || w.ops[o].ConfirmStamping?)
    ensures o in Next(w, Step(o, true)).ops
    ensures Next(w, Step(o, true)).ops[o] == AfterClock(w.ops[o], w.now)
  {
  }

  lemma KeyMoves(w: World, o: OpId)
    requires o in w.ops && w.ops[o].ConfirmKeying?
    ensures o in Next(w, Step(o, true)).ops
    ensures var op := w.ops[o];
      Next(w, Step(o, true)).ops[o] == ConfirmUploading(op.id, op.bill, Key(op.id, w.nextId))
  {
  }

  predicate Counting(op: Op) {
    op.CreateCounting? || op.CompleteCounting? || op.CancelCounting? || op.PayCounting? || op.ConfirmCounting?
    || op.CycleCounting?
  }

  lemma CountMoves(w: World, o: OpId)
    requires o in w.ops && Counting(w.ops[o])
    ensures o in Next(w, Step(o, true)).ops
    ensures Next(w, Step(o, true)).ops[o] ==
              Returned(match w.ops[o]
                       case CreateCounting(row) => PickupReturned(row)
                       case CompleteCounting(row) => PickupReturned(row)
                       case CancelCounting(row) => PickupReturned(row)
                       case PayCounting(due) => PaymentReturned(due)
                       case ConfirmCounting(due) => PaymentReturned(due)
                       case CycleCounting(ids, _) => CycleSucceeded(|ids|))
  {
  }

  // ---- calls ----

  /** The operation starts with request `r`; `w1` is the service just after that. */
  method Begin(s: Server, ghost o: OpId, r: Request) returns (ghost w1: World)
    requires Inv(s.Now()) && o !in s.ops
    modifies s
    ensures w1 == Next(old(s.Now()), Start(o, r)) && s.Since(w1) && Inv(w1) && s.clock == old(s.clock)
    ensures w1.db == old(s.Db()) && w1.now == old(s.clock) && Mentioned(r) <= w1.nextId
    ensures o in s.ops && s.ops[o] == Machine.Begin(old(s.Now()), r)
  {
    ghost var w := s.Now();
    ReachesItself(w);
    StartMoves(w, o, r);
    assert s.Since(w);
    hide Inv, Next, Run;
    s.Enter(o, r, w);
    w1 := s.Now();
    ReachesItself(w1);
    NextInv(w, Start(o, r));
  }

  lemma StartMoves(w: World, o: OpId, r: Request)
    requires o !in w.ops
    ensures var v := Next(w, Start(o, r));
      && o in v.ops && v.ops[o] == Machine.Begin(w, r)
      && v.db == w.db && v.now == w.now && Mentioned(r) <= v.nextId
  {
  }

  /** A step takes no time and changes the tables only by its write. */
  lemma StepStays(w: World, o: OpId, ok: bool)
    requires o in w.ops
    ensures Next(w, Step(o, ok)).now == w.now
    ensures !CallOf(w.ops[o], w.nextId).Db? ==> Next(w, Step(o, ok)).db == w.db
  {
  }

  /** Rows known at `w0`, as they are now. */
  lemma SinceRows(s: Server, w0: World)
    requires s.Since(w0) && Inv(w0)
    ensures w0.now <= s.clock
    ensures forall i | i in s.pickups && i < w0.nextId ::
              i in w0.db.pickups && PickupEvolves(w0.db.pickups[i], s.pickups[i])
    ensures forall i | i in s.payments && i in w0.db.payments :: PaymentEvolves(w0.db.payments[i], s.payments[i])
  {
    ReachedRows(w0, s.Now());
  }

  lemma SinceIds(s: Server, w0: World)
    requires s.Since(w0)
    ensures forall i | i in s.pickups :: s.pickups[i].id == i && PickupCoherent(s.pickups[i])
    ensures forall i | i in s.payments :: s.payments[i].id == i
  {
  }

  method HasPendingPaymentForHousehold(s: Server, ghost o: OpId, household: Id, ghost w0: World)
    returns (r: Result<bool>)
    requires s.Since(w0) && o in s.ops && s.ops[o].CreateChecking? && s.ops[o].household == household
    modifies s
    ensures s.Since(w0) && o in s.ops && (r.Err? ==> r == Err(Internal))
    ensures r == Ok(true) ==>
              exists j | j in s.payments ::
                s.payments[j].household == household && s.payments[j].status == PaymentPending
    ensures var op := old(s.ops)[o];
      if r.Err? then s.ops[o] == Returned(Refused(Internal))
      else if r.value then s.ops[o] == Returned(Refused(Conflict))
      else s.ops[o].CreateInserting? && s.ops[o] == CreateInserting(household, op.kind, op.safetyCheck, s.ops[o].known)
    ensures old(s.clock) <= s.clock
  {
    hide Next, Run, s.Since;
    s.Interfere(o, w0);
    ghost var w := s.Now();
    r := s.HasPendingPaymentForHousehold(o, household, w0);
    FlagMoves(w, o, r);
    StepStays(w, o, r.Ok?);
  }

  method FindPickupById(s: Server, ghost o: OpId, id: Id, ghost w0: World) returns (r: Result<Pickup>)
    requires s.Since(w0) && o in s.ops && ReadsPickup(s.ops[o], id) && Inv(w0) && id < w0.nextId
    modifies s
    ensures s.Since(w0) && o in s.ops && s.ops[o] == AfterPickupRead(old(s.ops)[o], r)
    ensures match r
            case Err(e) => e == Internal || (e == NotFound && id !in s.pickups)
            case Ok(p) =>
              && p.id == id && PickupCoherent(p) && id in s.pickups && s.pickups[id] == p
              && id in w0.db.pickups && PickupEvolves(w0.db.pickups[id], p)
    ensures old(s.clock) <= s.clock
  {
    hide Next, Run, s.Since;
    s.Interfere(o, w0);
    SinceIds(s, w0);
    SinceRows(s, w0);
    ghost var w := s.Now();
    r := s.FindPickupById(o, id, w0);
    PickupReadMoves(w, o, id, r);
    StepStays(w, o, r != Err(Internal));
  }

  /** FindByID as Cancel uses it: after a cancel that took effect the row is canceled, and
      after one that did not it has the status it had at the update. */
  method FindForCancel(s: Server, ghost o: OpId, id: Id, ghost w0: World) returns (r: Result<Pickup>)
    requires s.Since(w0) && o in s.ops && s.ops[o].CancelReading? && s.ops[o].id == id
    requires Inv(w0) && id < w0.nextId
    modifies s
    ensures s.Since(w0) && o in s.ops
    ensures match r
            case Err(e) => e == Internal || (e == NotFound && id !in s.pickups)
            case Ok(p) =>
              && p.id == id && PickupCoherent(p) && id in s.pickups && s.pickups[id] == p
              && id in w0.db.pickups && PickupEvolves(w0.db.pickups[id], p)
    ensures var done := old(s.ops)[o].done;
      s.ops[o] == match r
                  case Err(e) => Returned(Refused(e))
                  case Ok(p) => if done then CancelCounting(p) else Returned(CancelRefused(p.status == Completed))
    ensures r.Ok? && old(s.ops)[o].done ==> r.value.id == id && r.value.status == Canceled
    ensures r.Ok? && !old(s.ops)[o].done ==>
              old(s.ops)[o].seen.Some? && old(s.ops)[o].seen.value.status == r.value.status
              && r.value.status in {Completed, Canceled}
  {
    hide Next, Run, s.Since;
    s.Interfere(o, w0);
    SinceIds(s, w0);
    SinceCancels(s, w0, o);
    SinceRows(s, w0);
    ghost var w := s.Now();
    r := s.FindPickupById(o, id, w0);
    PickupReadMoves(w, o, id, r);
    StepStays(w, o, r != Err(Internal));
  }

  lemma SinceCancels(s: Server, w0: World, o: OpId)
    requires s.Since(w0) && o in s.ops && s.ops[o].CancelReading?
    ensures var op := s.ops[o];
      op.id in s.pickups ==>
        if op.done then s.pickups[op.id].status == Canceled
        else
          && op.seen.Some? && op.seen.value.status == s.pickups[op.id].status
          && s.pickups[op.id].status in {Completed, Canceled}
  {
    CancelAnswer(s.Now(), o);
  }

  method FindPaymentById(s: Server, ghost o: OpId, id: Id, ghost w0: World) returns (r: Result<Payment>)
    requires s.Since(w0) && o in s.ops && s.ops[o] == ConfirmReading(id) && Inv(w0)
    modifies s
    ensures s.Since(w0) && o in s.ops && s.ops[o] == AfterBillRead(id, r)
    ensures match r
            case Err(e) => e == Internal || (e == NotFound && id !in s.payments)
            case Ok(p) =>
              && p.id == id && id in s.payments && s.payments[id] == p
              && (id in w0.db.payments ==> PaymentEvolves(w0.db.payments[id], p))
    ensures old(s.clock) <= s.clock
  {
    hide Next, Run, s.Since;
    s.Interfere(o, w0);
    SinceIds(s, w0);
    SinceRows(s, w0);
    ghost var w := s.Now();
    r := s.FindPaymentById(o, id, w0);
    PaymentReadMoves(w, o, r);
    StepStays(w, o, r != Err(Internal));
  }

  method CreatePickup(s: Server, ghost o: OpId, household: Id, kind: WasteType, safetyCheck: bool, ghost w0: World)
    returns (r: Result<Pickup>)
    requires s.Since(w0) && o in s.ops && s.ops[o].CreateInserting?
    requires s.ops[o] == CreateInserting(household, kind, safetyCheck, s.ops[o].known)
    modifies s
    ensures s.Since(w0) && o in s.ops
    ensures s.ops[o] == match r case Err(e) => Returned(Refused(e)) case Ok(p) => CreateCounting(p)
    ensures old(s.clock) <= s.clock
    ensures match r
            case Err(e) => e == Internal || (e == NotFound && household !in s.households)
            case Ok(p) =>
              && p == Pickup(p.id, household, kind, Pending, None, safetyCheck, s.clock, s.clock)
              && p.id in s.pickups && s.pickups[p.id] == p
  {
    hide Next, Run, s.Since;
    s.Interfere(o, w0);
    ghost var w := s.Now();
    r := s.CreatePickup(o, household, kind, safetyCheck, w0);
    InsertPickupMoves(w, o, r);
    StepStays(w, o, r != Err(Internal));
    InsertHouseholds(w, o, r != Err(Internal));
  }

  lemma InsertHouseholds(w: World, o: OpId, ok: bool)
    requires o in w.ops && (w.ops[o].CreateInserting? || w.ops[o].PayInserting?)
    ensures var v := Next(w, Step(o, ok)).db;
      v.households == w.db.households && (w.ops[o].PayInserting? ==> v.pickups == w.db.pickups)
  {
  }

  method CreatePayment(s: Server, ghost o: OpId, household: Id, waste: Id, amount: Money, ghost w0: World)
    returns (r: Result<Payment>)
    requires s.Since(w0) && o in s.ops && s.ops[o] == PayInserting(household, waste, amount)
    modifies s
    ensures s.Since(w0) && o in s.ops
    ensures s.ops[o] == match r case Err(e) => Returned(Refused(e)) case Ok(p) => PayCounting(p)
    ensures old(s.clock) <= s.clock
    ensures match r
            case Err(e) =>
              || e == Internal
              || (e == Validation && amount <= 0)
              || (e == Conflict && exists j | j in s.payments ::
                    || s.payments[j].waste == waste
                    || (s.payments[j].household == household && s.payments[j].status == PaymentPending))
              || (e == NotFound && (household !in s.households || waste !in s.pickups))
            case Ok(p) =>
              && p == Payment(p.id, household, waste, amount, None, PaymentPending, None, s.clock, s.clock)
              && p.id in s.payments && s.payments[p.id] == p
  {
    hide Next, Run, s.Since;
    s.Interfere(o, w0);
    ghost var w := s.Now();
    r := s.CreatePayment(o, household, waste, amount, w0);
    InsertPaymentMoves(w, o, r);
    StepStays(w, o, r != Err(Internal));
    InsertHouseholds(w, o, r != Err(Internal));
  }

  method SchedulePickup(s: Server, ghost o: OpId, id: Id, date: Time, ghost w0: World) returns (err: Option<Error>)
    requires s.Since(w0) && o in s.ops && s.ops[o].ScheduleUpdating? && s.ops[o].id == id && s.ops[o].date == date
    modifies s
    ensures s.Since(w0) && o in s.ops
    ensures var snap := old(s.ops)[o].snap;
      s.ops[o] == match err
                  case Some(e) => Returned(Refused(e))
                  case None => Returned(PickupReturned(snap.(status := Scheduled, pickupDate := Some(date))))
    ensures match err
            case Some(e) =>
              || e == Internal
              || (e == Conflict && !(id in s.pickups && s.pickups[id].status == Pending))
            case None =>
              && id in s.pickups
              && s.pickups[id] ==
                   old(s.ops)[o].snap.(status := Scheduled, pickupDate := Some(date), updatedAt := s.clock)
  {
    hide Next, Run, s.Since;
    s.Interfere(o, w0);
    SnapIsRow(s, o, w0);
    ghost var w := s.Now();
    err := s.SchedulePickup(o, id, date, w0);
    ScheduleMoves(w, o, err);
    StepStays(w, o, err != Some(Internal));
  }

  /** A row that is still pending is what Schedule has read. */
  lemma SnapIsRow(s: Server, o: OpId, w0: World)
    requires s.Since(w0) && o in s.ops && s.ops[o].ScheduleUpdating?
    ensures var id := s.ops[o].id;
      id in s.pickups && s.pickups[id].status == Pending ==> s.pickups[id] == s.ops[o].snap
  {
    assert OpOk(s.Db(), s.nextId, s.ops[o]);
  }

  /** BeginTxx: the transaction has its uuid and its value of NOW(). */
  method BeginTx(s: Server, ghost o: OpId, ghost w0: World) returns (payment: Id, stamp: Time)
    requires s.Since(w0) && o in s.ops && s.ops[o].CompleteBeginning?
    modifies s
    ensures s.Since(w0) && o in s.ops
    ensures s.ops[o] == CompleteWriting(old(s.ops)[o].id, old(s.ops)[o].snap, payment, stamp)
  {
    hide Next, Run, s.Since;
    s.Interfere(o, w0);
    ghost var w := s.Now();
    stamp, payment := s.LocalStep(o, w0);
    BeginMoves(w, o);
  }

  lemma BeginMoves(w: World, o: OpId)
    requires o in w.ops && w.ops[o].CompleteBeginning?
    ensures o in Next(w, Step(o, true)).ops
    ensures Next(w, Step(o, true)).ops[o] == CompleteWriting(w.ops[o].id, w.ops[o].snap, w.nextId, w.now)
  {
  }

  method CompleteTransaction(
    s: Server, ghost o: OpId, id: Id, payment: Id, household: Id, amount: Money, stamp: Time, ghost w0: World)
    returns (err: Option<Error>)
    requires s.Since(w0) && o in s.ops && s.ops[o].CompleteWriting?
    requires s.ops[o] == CompleteWriting(id, s.ops[o].snap, payment, stamp)
    requires household == s.ops[o].snap.household && amount == CanonicalAmount(s.ops[o].snap.kind)
    modifies s
    ensures s.Since(w0) && o in s.ops
    ensures s.ops[o] == match err
                        case Some(e) => Returned(Refused(e))
                        case None => CompleteCounting(old(s.ops)[o].snap.(status := Completed))
    ensures id in s.pickups ==> s.pickups[id].household == household
    ensures match err
            case Some(e) =>
              || e == Internal
              || (e == Conflict && (
                    || !(id in s.pickups && s.pickups[id].status == Scheduled)
                    || exists j | j in s.payments ::
                         || s.payments[j].waste == id
                         || (s.payments[j].household == household && s.payments[j].status == PaymentPending)))
            case None =>
              && id in s.pickups && s.pickups[id].status == Completed
              && payment in s.payments
              && s.payments[payment]
                 == Payment(payment, household, id, amount, None, PaymentPending, None, stamp, stamp)
  {
    hide Next, Run, s.Since;
    s.Interfere(o, w0);
    SinceKnows(s, o, w0);
    ghost var w := s.Now();
    err := s.CompleteTransaction(o, id, payment, household, amount, stamp, w0);
    CompleteMoves(w, o, err);
  }

  /** The household and the amount of a transaction are in order. */
  lemma SinceKnows(s: Server, o: OpId, w0: World)
    requires s.Since(w0) && o in s.ops && s.ops[o].CompleteWriting?
    ensures s.ops[o].id in s.pickups ==>
              s.ops[o].snap.household in s.households && s.pickups[s.ops[o].id].household == s.ops[o].snap.household
    ensures CanonicalAmount(s.ops[o].snap.kind) > 0
  {
    CompleteKnows(s.Now(), o);
    assert OpOk(s.Db(), s.nextId, s.ops[o]);
  }

  method CancelIfCancellable(s: Server, ghost o: OpId, id: Id, ghost w0: World) returns (r: Result<bool>)
    requires s.Since(w0) && o in s.ops && s.ops[o] == CancelUpdating(id) && Inv(w0) && id < w0.nextId
    modifies s
    ensures s.Since(w0) && o in s.ops
    ensures r.Err? ==> r.error == Internal
    ensures r == Ok(true) ==> id in w0.db.pickups && w0.db.pickups[id].status in {Pending, Scheduled}
    ensures match r
            case Err(e) => s.ops[o] == Returned(Refused(e))
            case Ok(hit) => s.ops[o].CancelReading? && s.ops[o] == CancelReading(id, hit, s.ops[o].seen)
  {
    hide Next, Run, s.Since;
    s.Interfere(o, w0);
    ghost var w := s.Now();
    SinceRows(s, w0);
    r := s.CancelIfCancellable(o, id, w0);
    CancelMoves(w, o, r);
  }

  method ConfirmPayment(s: Server, ghost o: OpId, id: Id, key: Key, paidAt: Time, ghost w0: World)
    returns (err: Option<Error>)
    requires s.Since(w0) && o in s.ops && s.ops[o].ConfirmUpdating?
    requires s.ops[o] == ConfirmUpdating(id, s.ops[o].bill, key, paidAt)
    modifies s
    ensures s.Since(w0) && o in s.ops
    ensures s.ops[o] == match err
                        case Some(e) => ConfirmCleaning(key, e)
                        case None =>
                          ConfirmCounting(old(s.ops)[o].bill.(
                            status := PaymentPaid, proof := Some(key), paymentDate := Some(paidAt)))
    ensures old(s.clock) <= s.clock && id in s.spent
    ensures match err
            case Some(e) =>
              e == Internal || (e == Conflict && !(id in s.payments && s.payments[id].status == PaymentPending))
            case None =>
              && id in s.payments && s.payments[id].status == PaymentPaid
              && s.payments[id].proof == Some(key) && s.payments[id].paymentDate == Some(paidAt)
  {
    hide Next, Run, s.Since;
    s.Interfere(o, w0);
    SinceBill(s, o, w0);
    ghost var w := s.Now();
    err := s.ConfirmPayment(o, id, key, paidAt, w0);
    ConfirmMoves(w, o, err);
    StepStays(w, o, err != Some(Internal));
    ConfirmSpends(w, o, err != Some(Internal));
  }

  lemma SinceBill(s: Server, o: OpId, w0: World)
    requires s.Since(w0) && o in s.ops && s.ops[o].ConfirmUpdating?
    ensures s.ops[o].id in s.spent
  {
    assert OpOk(s.Db(), s.nextId, s.ops[o]);
  }

  lemma ConfirmSpends(w: World, o: OpId, ok: bool)
    requires o in w.ops && w.ops[o].ConfirmUpdating?
    ensures Next(w, Step(o, ok)).db.spent == w.db.spent
  {
  }

  method Upload(s: Server, ghost o: OpId, key: Key, ghost w0: World) returns (err: Option<Error>)
    requires s.Since(w0) && o in s.ops && s.ops[o].ConfirmUploading? && s.ops[o].key == key
    modifies s
    ensures s.Since(w0) && o in s.ops
    ensures s.ops[o] == match err
                        case Some(e) => Returned(Refused(e))
                        case None => ConfirmStamping(old(s.ops)[o].id, old(s.ops)[o].bill, key)
    ensures err.Some? ==> err.value == Internal
    ensures old(s.clock) <= s.clock
  {
    hide Next, Run, s.Since;
    s.Interfere(o, w0);
    ghost var w := s.Now();
    err := s.Upload(o, key, w0);
    StepStays(w, o, err.None?);
    UploadMoves(w, o, err.None?);
  }

  lemma SinceItself(s: Server, w0: World)
    requires s.Since(w0)
    ensures s.Since(s.Now()) && Inv(s.Now()) && Reaches(w0, s.Now())
  {
    ReachesItself(s.Now());
  }

  lemma SinceThrough(s: Server, w0: World, w: World)
    requires Reaches(w0, w) && s.Since(w)
    ensures s.Since(w0)
  {
    var es :| s.Now() == Run(w, es);
    ReachesRun(w0, w, es);
  }

  /** A payment that was ever there is pending only if it was pending before. */
  lemma StaysPaid(s: Server, w: World)
    requires s.Since(w) && Inv(w)
    ensures forall i | i in s.payments && i in w.db.spent && s.payments[i].status == PaymentPending ::
              i in w.db.payments && w.db.payments[i].status == PaymentPending
  {
    ReachedRows(w, s.Now());
  }

  method Delete(s: Server, ghost o: OpId, key: Key, ghost w0: World) returns (err: Option<Error>)
    requires s.Since(w0) && o in s.ops && s.ops[o].ConfirmCleaning? && s.ops[o].key == key
    modifies s
    ensures s.Since(w0) && o in s.ops && s.ops[o] == Returned(Refused(old(s.ops)[o].error))
    ensures forall i | i in s.payments && i in old(s.spent) && s.payments[i].status == PaymentPending ::
              i in old(s.payments) && old(s.payments)[i].status == PaymentPending
  {
    ghost var before := s.Now();
    SinceItself(s, w0);
    hide Next, Run, s.Since;
    s.Interfere(o, before);
    StaysPaid(s, before);
    SinceThrough(s, w0, before);
    ghost var w := s.Now();
    err := s.Delete(o, key, w0);
    CleanMoves(w, o, err.None?);
    StepStays(w, o, err.None?);
  }

  method FindExpiredOrganic(s: Server, ghost o: OpId, before: Time, ghost w0: World) returns (r: Result<seq<Pickup>>)
    requires s.Since(w0) && o in s.ops && s.ops[o] == CycleFinding(before)
    modifies s
    ensures s.Since(w0) && o in s.ops
    ensures match r
            case Err(_) => s.ops[o] == Returned(CycleFailed)
            case Ok(rows) =>
              && |rows| == |IdsOf(rows)|
              && s.ops[o] == if rows == [] then Returned(CycleSucceeded(0)) else CycleCanceling(before, IdsOf(rows))
  {
    hide Next, Run, s.Since;
    s.Interfere(o, w0);
    ghost var w := s.Now();
    r := s.FindExpiredOrganic(o, before, w0);
    FindMoves(w, o, if r.Ok? then Ok(IdsOf(r.value)) else Err(Internal));
    if r.Ok? && r.value != [] {
      assert r.value[0].id in IdsOf(r.value);
    }
  }

  method BulkCancel(s: Server, ghost o: OpId, ids: seq<Id>, ghost w0: World) returns (err: Option<Error>)
    requires s.Since(w0) && o in s.ops && s.ops[o].CycleCanceling? && s.ops[o].ids == ToSet(ids)
    modifies s
    ensures s.Since(w0) && o in s.ops
    ensures if err.Some? then s.ops[o] == Returned(CycleFailed)
            else s.ops[o].CycleCounting? && s.ops[o].ids == ToSet(ids)
  {
    hide Next, Run, s.Since;
    s.Interfere(o, w0);
    ghost var w := s.Now();
    err := s.BulkCancel(o, ids, w0);
    BulkMoves(w, o, err.None?);
  }

  /** time.Now() between two calls. */
  method Clock(s: Server, ghost o: OpId, ghost w0: World) returns (now: Time)
    requires s.Since(w0) && o in s.ops && (s.ops[o].ScheduleChecking? || s.ops[o].ConfirmStamping?)
    modifies s
    ensures s.Since(w0) && o in s.ops && s.ops[o] == AfterClock(old(s.ops)[o], now)
    ensures old(s.clock) <= now == s.clock
  {
    hide Next, Run, s.Since;
    s.Interfere(o, w0);
    ghost var w := s.Now();
    var uuid;
    now, uuid := s.LocalStep(o, w0);
    ClockMoves(w, o);
    StepStays(w, o, true);
  }

  /** uuid.New(). */
  method NewUuid(s: Server, ghost o: OpId, ghost w0: World) returns (uuid: Id)
    requires s.Since(w0) && o in s.ops && s.ops[o].ConfirmKeying?
    modifies s
    ensures s.Since(w0) && o in s.ops
    ensures s.ops[o] == ConfirmUploading(old(s.ops)[o].id, old(s.ops)[o].bill, Key(old(s.ops)[o].id, uuid))
    ensures old(s.clock) <= s.clock
  {
    hide Next, Run, s.Since;
    s.Interfere(o, w0);
    ghost var w := s.Now();
    var now;
    now, uuid := s.LocalStep(o, w0);
    StepStays(w, o, true);
    KeyMoves(w, o);
  }

  // ---- counters ----

  method CountCreated(s: Server, ghost o: OpId, kind: WasteType, ghost w0: World)
    requires s.Since(w0) && o in s.ops && s.ops[o].CreateCounting? && s.ops[o].row.kind == kind
    modifies s
    ensures s.Since(w0) && o in s.ops && s.ops[o] == Returned(PickupReturned(old(s.ops)[o].row))
    ensures old(s.clock) <= s.clock
  {
    hide Next, Run, s.Since;
    s.Interfere(o, w0);
    StepStays(s.Now(), o, true);
    CountMoves(s.Now(), o);
    s.Increment(o, Add(s.counters, PickupsCreated(kind), 1), w0);
  }

  method CountCompleted(s: Server, ghost o: OpId, kind: WasteType, ghost w0: World)
    requires s.Since(w0) && o in s.ops && s.ops[o].CompleteCounting? && s.ops[o].row.kind == kind
    modifies s
    ensures s.Since(w0) && o in s.ops && s.ops[o] == Returned(PickupReturned(old(s.ops)[o].row))
  {
    hide Next, Run, s.Since;
    s.Interfere(o, w0);
    CountMoves(s.Now(), o);
    s.Increment(o, Add(Add(s.counters, PickupsCompleted(kind), 1), PaymentsCreated, 1), w0);
  }

  method CountCanceled(s: Server, ghost o: OpId, kind: WasteType, ghost w0: World)
    requires s.Since(w0) && o in s.ops && s.ops[o].CancelCounting? && s.ops[o].row.kind == kind
    modifies s
    ensures s.Since(w0) && o in s.ops && s.ops[o] == Returned(PickupReturned(old(s.ops)[o].row))
  {
    hide Next, Run, s.Since;
    s.Interfere(o, w0);
    CountMoves(s.Now(), o);
    s.Increment(o, Add(s.counters, PickupsCanceled(kind, false), 1), w0);
  }

  method CountPaymentCreated(s: Server, ghost o: OpId, ghost w0: World)
    requires s.Since(w0) && o in s.ops && s.ops[o].PayCounting?
    modifies s
    ensures s.Since(w0) && o in s.ops && s.ops[o] == Returned(PaymentReturned(old(s.ops)[o].due))
    ensures old(s.clock) <= s.clock
  {
    hide Next, Run, s.Since;
    s.Interfere(o, w0);
    StepStays(s.Now(), o, true);
    CountMoves(s.Now(), o);
    s.Increment(o, Add(s.counters, PaymentsCreated, 1), w0);
  }

  method CountConfirmed(s: Server, ghost o: OpId, ghost w0: World)
    requires s.Since(w0) && o in s.ops && s.ops[o].ConfirmCounting?
    modifies s
    ensures s.Since(w0) && o in s.ops && s.ops[o] == Returned(PaymentReturned(old(s.ops)[o].due))
    ensures old(s.clock) <= s.clock
  {
    hide Next, Run, s.Since;
    s.Interfere(o, w0);
    StepStays(s.Now(), o, true);
    CountMoves(s.Now(), o);
    s.Increment(o, Add(s.counters, PaymentsConfirmed, 1), w0);
  }

  /** The worker counts the rows it listed. */
  method CountCycle(s: Server, ghost o: OpId, listed: nat, ghost w0: World)
    requires s.Since(w0) && o in s.ops && s.ops[o].CycleCounting?
    requires |s.ops[o].ids| == listed
    modifies s
    ensures s.Since(w0) && o in s.ops && s.ops[o] == Returned(CycleSucceeded(listed))
  {
    hide Next, Run, s.Since;
    s.Interfere(o, w0);
    CountMoves(s.Now(), o);
    s.Increment(o, Add(Add(s.counters, OrganicCancels, listed), PickupsCanceled(Organic, true), listed), w0);
  }
}

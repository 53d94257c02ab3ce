/** The service methods and the worker's cycle, statement by statement. Any number of other
    operations may run before each call. Each method is proved to be a run of its operation in
    the transition system, so every property of runs holds of it. */
module Services {
  import opened Domain
  import opened Sql
  import opened Machine
  import opened Invariant
  import opened Backend
  import Calls

  function PickupOutcome(r: Result<Pickup>): Outcome {
    match r
    case Ok(p) => PickupReturned(p)
    case Err(e) => Refused(e)
  }

  function PaymentOutcome(r: Result<Payment>): Outcome {
    match r
    case Ok(p) => PaymentReturned(p)
    case Err(e) => Refused(e)
  }

  lemma SinceInv(s: Server, w0: World)
    requires s.Since(w0)
    ensures Inv(s.Now()) && Reaches(w0, s.Now())
  {
  }

  lemma SinceThrough(s: Server, w0: World, w: World)
    requires Reaches(w0, w) && s.Since(w)
    ensures s.Since(w0)
  {
    var es :| s.Now() == Run(w, es);
    ReachesRun(w0, w, es);
  }

  // ---- pickups ----

  /** The check of BR-01 and the insert are two statements. */
  method CreatePickup(s: Server, ghost o: OpId, household: Id, kind: WasteType, safetyCheck: bool)
    returns (r: Result<Pickup>)
    requires Inv(s.Now()) && o !in s.ops
    modifies s
    ensures s.Since(Next(old(s.Now()), Start(o, Request.CreatePickup(household, kind, safetyCheck))))
    ensures o in s.ops && s.ops[o] == Returned(PickupOutcome(r))
    ensures match r
            case Ok(p) =>
              && p == Pickup(p.id, household, kind, Pending, None, safetyCheck, p.createdAt, p.createdAt)
              && old(s.clock) <= p.createdAt <= s.clock
            case Err(e) =>
              || e == Internal
              || (e == Conflict && exists j | j in s.payments ::
                    s.payments[j].household == household && s.payments[j].status == PaymentPending)
              || (e == NotFound && household !in s.households)
  {
    hide Inv, Next, s.Since;
    ghost var w0 := Calls.Begin(s, o, Request.CreatePickup(household, kind, safetyCheck));
    var pending := Calls.HasPendingPaymentForHousehold(s, o, household, w0);
    if pending.Err? {
      return Err(Internal);
    }
    if pending.value {
      return Err(Conflict);
    }
    r := Calls.CreatePickup(s, o, household, kind, safetyCheck, w0);
    if r.Err? {
      return r;
    }
    Calls.CountCreated(s, o, kind, w0);
  }

  method Schedule(s: Server, ghost o: OpId, id: Id, date: Time) returns (r: Result<Pickup>)
    requires Inv(s.Now()) && o !in s.ops
    modifies s
    ensures s.Since(Next(old(s.Now()), Start(o, Request.Schedule(id, date))))
    ensures o in s.ops && s.ops[o] == Returned(PickupOutcome(r))
    ensures match r
            case Ok(p) =>
              && id in old(s.pickups) && var before := old(s.pickups)[id];
              && before.status == Pending && (before.kind == Electronic ==> before.safetyCheck)
              && old(s.clock) <= date
              && p == before.(status := Scheduled, pickupDate := Some(date))
              && id in s.pickups && s.pickups[id] == p.(updatedAt := s.clock)
            case Err(e) =>
              || e == Internal
              || (e == NotFound && id !in s.pickups)
              || (e == Conflict && !(id in s.pickups && s.pickups[id].status == Pending))
              || (e == BusinessRule
                  && id in s.pickups && s.pickups[id].kind == Electronic && !s.pickups[id].safetyCheck)
              || (e == Validation && date < s.clock)
  {
    hide Inv, Next, s.Since;
    ghost var w0 := Calls.Begin(s, o, Request.Schedule(id, date));
    var found := Calls.FindPickupById(s, o, id, w0);
    if found.Err? {
      return found;
    }
    var pickup := found.value;
    if pickup.status != Pending {
      return Err(Conflict);
    }
    if pickup.kind == Electronic && !pickup.safetyCheck {
      return Err(BusinessRule);
    }
    var now := Calls.Clock(s, o, w0);
    if date < now {
      return Err(Validation);
    }
    var err := Calls.SchedulePickup(s, o, id, date, w0);
    if err.Some? {
      return Err(err.value);
    }
    pickup := pickup.(status := Scheduled);
    pickup := pickup.(pickupDate := Some(date));
    return Ok(pickup);
  }

  /** The household and the amount come from the first read; the transaction may be much later. */
  method Complete(s: Server, ghost o: OpId, id: Id) returns (r: Result<Pickup>)
    requires Inv(s.Now()) && o !in s.ops
    modifies s
    ensures s.Since(Next(old(s.Now()), Start(o, Request.Complete(id))))
    ensures o in s.ops && s.ops[o] == Returned(PickupOutcome(r))
    ensures match r
            case Ok(p) =>
              && id in old(s.pickups) && var before := old(s.pickups)[id];
              && before.status in {Pending, Scheduled} && p.status == Completed && p.pickupDate.Some?
              && PickupEvolves(before, p.(status := Scheduled))
            case Err(e) =>
              || e == Internal
              || (e == NotFound && id !in s.pickups)
              || (e == Conflict && (
                    || !(id in s.pickups && s.pickups[id].status == Scheduled)
                    || exists j | j in s.payments ::
                         || s.payments[j].waste == id
                         || (s.payments[j].household == s.pickups[id].household
                             && s.payments[j].status == PaymentPending)))
  {
    hide Inv, Next, s.Since;
    ghost var w0 := Calls.Begin(s, o, Request.Complete(id));
    var found := Calls.FindPickupById(s, o, id, w0);
    if found.Err? {
      return found;
    }
    var pickup := found.value;
    if pickup.status != Scheduled {
      return Err(Conflict);
    }
    var amount := CanonicalAmount(pickup.kind);
    var payment, stamp := Calls.BeginTx(s, o, w0);
    var err := Calls.CompleteTransaction(s, o, id, payment, pickup.household, amount, stamp, w0);
    if err.Some? {
      return Err(err.value);
    }
    Calls.CountCompleted(s, o, pickup.kind, w0);
    pickup := pickup.(status := Completed);
    return Ok(pickup);
  }

  /** The update of Cancel missed: read the row to say why. The status blamed is the one the
      row had at the update. */
  method CannotCancel(s: Server, ghost o: OpId, id: Id) returns (r: Result<Pickup>, blamed: Option<PickupStatus>)
    requires Inv(s.Now()) && o in s.ops && s.ops[o].CancelReading? && s.ops[o].id == id && !s.ops[o].done
    modifies s
    ensures s.Since(old(s.Now())) && o in s.ops
    ensures s.ops[o] == Returned(if blamed.Some? then CancelRefused(blamed.value == Completed) else PickupOutcome(r))
    ensures r.Err? && (blamed.Some? ==>
                          && r == Err(Conflict) && old(s.ops)[o].seen.Some?
                          && old(s.ops)[o].seen.value.status == blamed.value)
    ensures if blamed.Some? then
              id in s.pickups && s.pickups[id].status == blamed.value && blamed.value in {Completed, Canceled}
            else r == Err(Internal) || (r == Err(NotFound) && id !in s.pickups)
  {
    ghost var w0 := s.Now();
    ReachesItself(w0);
    assert s.Since(w0);
    hide Inv, s.Since;
    var found := Calls.FindForCancel(s, o, id, w0);
    if found.Err? {
      return found, None;
    }
    match found.value.status {
      case Completed => return Err(Conflict), Some(Completed);
      case _ => return Err(Conflict), Some(Canceled);
    }
  }

  /** Besides the result, the status a conflict is blamed on. */
  method Cancel(s: Server, ghost o: OpId, id: Id) returns (r: Result<Pickup>, blamed: Option<PickupStatus>)
    requires Inv(s.Now()) && o !in s.ops
    modifies s
    ensures s.Since(Next(old(s.Now()), Start(o, Request.Cancel(id))))
    ensures o in s.ops
    ensures s.ops[o] == Returned(if blamed.Some? then CancelRefused(blamed.value == Completed) else PickupOutcome(r))
    ensures match r
            case Ok(p) =>
              && blamed.None? && id in old(s.pickups) && var before := old(s.pickups)[id];
              && before.status in {Pending, Scheduled} && p.status == Canceled && PickupEvolves(before, p)
            case Err(e) =>
              if blamed.Some? then
                && e == Conflict && blamed.value in {Completed, Canceled}
                && id in s.pickups && s.pickups[id].status == blamed.value
              else e == Internal || (e == NotFound && id !in s.pickups)
  {
    hide Inv, Next, s.Since;
    ghost var w0 := Calls.Begin(s, o, Request.Cancel(id));
    var ok := Calls.CancelIfCancellable(s, o, id, w0);
    if ok.Err? {
      return Err(ok.error), None;
    }
    if !ok.value {
      ghost var w := s.Now();
      SinceInv(s, w0);
      r, blamed := CannotCancel(s, o, id);
      SinceThrough(s, w0, w);
      return;
    }
    r := Calls.FindForCancel(s, o, id, w0);
    if r.Err? {
      return r, None;
    }
    Calls.CountCanceled(s, o, r.value.kind, w0);
    return r, None;
  }

  // ---- payments ----

  /** The amount the client claims is ignored. */
  method CreatePayment(s: Server, ghost o: OpId, household: Id, waste: Id, claimed: Money) returns (r: Result<Payment>)
    requires Inv(s.Now()) && o !in s.ops
    modifies s
    ensures s.Since(Next(old(s.Now()), Start(o, Request.CreatePayment(household, waste, claimed))))
    ensures o in s.ops && s.ops[o] == Returned(PaymentOutcome(r))
    ensures match r
            case Ok(p) =>
              && waste in old(s.pickups) && old(s.pickups)[waste].household == household
              && p == Payment(p.id, household, waste,
                              if old(s.pickups)[waste].kind == Electronic then 100_000_00 else 50_000_00,
                              None, PaymentPending, None, p.createdAt, p.createdAt)
              && old(s.clock) <= p.createdAt <= s.clock
            case Err(e) =>
              || e == Internal
              || (e == NotFound && (waste !in s.pickups || household !in s.households))
              || (e == BusinessRule && waste in s.pickups && s.pickups[waste].household != household)
              || (e == Conflict && exists j | j in s.payments ::
                    || s.payments[j].waste == waste
                    || (s.payments[j].household == household && s.payments[j].status == PaymentPending))
  {
    hide Inv, Next, s.Since;
    ghost var w0 := Calls.Begin(s, o, Request.CreatePayment(household, waste, claimed));
    var found := Calls.FindPickupById(s, o, waste, w0);
    if found.Err? {
      return Err(found.error);
    }
    if found.value.household != household {
      return Err(BusinessRule);
    }
    var amount := CanonicalAmount(found.value.kind);
    r := Calls.CreatePayment(s, o, household, waste, amount, w0);
    if r.Err? {
      return r;
    }
    Calls.CountPaymentCreated(s, o, w0);
  }

  /** BR-06: upload first, then the conditional update, then cleanup if that fails. */
  method Confirm(s: Server, ghost o: OpId, id: Id, hasFile: bool) returns (r: Result<Payment>)
    requires Inv(s.Now()) && o !in s.ops
    modifies s
    ensures s.Since(Next(old(s.Now()), Start(o, Request.Confirm(id, hasFile))))
    ensures o in s.ops && s.ops[o] == Returned(PaymentOutcome(r))
    ensures !hasFile <==> r == Err(Validation)
    ensures match r
            case Ok(p) =>
              && p.status == PaymentPaid && p.id == id
              && p.proof.Some? && p.proof.value.payment == id
              && p.paymentDate.Some? && old(s.clock) <= p.paymentDate.value <= s.clock
              && (id in old(s.payments) ==>
                    && old(s.payments)[id].status == PaymentPending
                    && p == old(s.payments)[id].(
                         status := PaymentPaid, proof := p.proof, paymentDate := p.paymentDate))
            case Err(e) =>
              || e == Internal || e == Validation
              || (e == NotFound && id !in s.payments)
              || (e == Conflict && !(id in s.payments && s.payments[id].status == PaymentPending))
  {
    hide Inv, Next, s.Since;
    ghost var w0 := Calls.Begin(s, o, Request.Confirm(id, hasFile));
    if !hasFile {
      return Err(Validation);
    }
    var found := Calls.FindPaymentById(s, o, id, w0);
    if found.Err? {
      return found;
    }
    var payment := found.value;
    if payment.status != PaymentPending {
      return Err(Conflict);
    }
    var uuid := Calls.NewUuid(s, o, w0);
    var key := Key(id, uuid);
    var err := Calls.Upload(s, o, key, w0);
    if err.Some? {
      return Err(err.value);
    }
    var paidAt := Calls.Clock(s, o, w0);
    err := Calls.ConfirmPayment(s, o, id, key, paidAt, w0);
    if err.Some? {
      var _ := Calls.Delete(s, o, key, w0);
      return Err(err.value);
    }
    Calls.CountConfirmed(s, o, w0);
    payment := payment.(status := PaymentPaid);
    payment := payment.(proof := Some(key));
    payment := payment.(paymentDate := Some(paidAt));
    return Ok(payment);
  }

  // ---- the worker ----

  /** The ids of the rows found, in the same order. */
  method IdsInOrder(rows: seq<Pickup>) returns (ids: seq<Id>)
    ensures |ids| == |rows| && forall k | 0 <= k < |rows| :: ids[k] == rows[k].id
    ensures ToSet(ids) == IdsOf(rows)
  {
    var filled := new Id[|rows|];
    for i := 0 to |rows|
      invariant forall k | 0 <= k < i :: filled[k] == rows[k].id
    {
      filled[i] := rows[i].id;
    }
    ids := filled[..];
    assert forall i | i in ToSet(ids) :: i in IdsOf(rows);
    forall i | i in IdsOf(rows) ensures i in ToSet(ids) {
      var k :| 0 <= k < |rows| && rows[k].id == i;
      assert ids[k] == i;
    }
  }

  /** One cycle of BR-04; `canceled` is the number it reports. */
  method RunCycle(s: Server, ghost o: OpId, cutoff: Time) returns (canceled: Option<nat>)
    requires Inv(s.Now()) && o !in s.ops
    modifies s
    ensures s.Since(Next(old(s.Now()), Start(o, Request.RunCycle(cutoff))))
    ensures o in s.ops
    ensures s.ops[o] == Returned(if canceled.Some? then CycleSucceeded(canceled.value) else CycleFailed)
  {
    hide Inv, Next, s.Since, IdsOf, ToSet;
    var before := s.clock - cutoff;
    ghost var w0 := Calls.Begin(s, o, Request.RunCycle(cutoff));
    var pickups := Calls.FindExpiredOrganic(s, o, before, w0);
    if pickups.Err? {
      return None;
    }
    if |pickups.value| == 0 {
      return Some(0);
    }
    var ids := IdsInOrder(pickups.value);
    var err := Calls.BulkCancel(s, o, ids, w0);
    if err.Some? {
      return None;
    }
    Calls.CountCycle(s, o, |ids|, w0);
    return Some(|ids|);
  }
}

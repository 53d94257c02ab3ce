/** The running service as a transition system. Every request and every worker cycle is an
    operation with a program counter and the snapshot it has read so far. One step of an
    operation is one SQL statement, one transaction, one object-store call or one local
    computation, and any other event may come between two steps. */
module Machine {
  import opened Domain
  import opened Sql

  type OpId = nat

  // ---- operations ----

  datatype Request =
    | CreatePickup(household: Id, kind: WasteType, safetyCheck: bool)
    | Schedule(id: Id, date: Time)
    | Complete(id: Id)
    | Cancel(id: Id)
    | CreatePayment(household: Id, waste: Id, claimed: Money)
    | Confirm(id: Id, hasFile: bool)
    | RunCycle(cutoff: Time)

  datatype Outcome =
    | PickupReturned(pickup: Pickup)
    | PaymentReturned(payment: Payment)
    | Refused(error: Error)
    | CancelRefused(wasCompleted: bool)   // a Conflict, with the status its message names
    | CycleSucceeded(found: nat)
    | CycleFailed

  /** Each constructor is a program point; its fields are the local variables still in use.
      `known` of CreateInserting, `seen` of CancelReading (the row the update met) and `hit` of
      CycleCounting (the rows the update wrote) are history variables. */
  datatype Op =
    | CreateChecking(household: Id, kind: WasteType, safetyCheck: bool)
    | CreateInserting(household: Id, kind: WasteType, safetyCheck: bool, known: set<Id>)
    | CreateCounting(row: Pickup)
    | ScheduleReading(id: Id, date: Time)
    | ScheduleChecking(id: Id, date: Time, snap: Pickup)
    | ScheduleUpdating(id: Id, date: Time, snap: Pickup)
    | CompleteReading(id: Id)
    | CompleteBeginning(id: Id, snap: Pickup)
    | CompleteWriting(id: Id, snap: Pickup, payment: Id, stamp: Time)
    | CompleteCounting(row: Pickup)
    | CancelUpdating(id: Id)
    | CancelReading(id: Id, done: bool, seen: Option<Pickup>)
    | CancelCounting(row: Pickup)
    | PayReading(household: Id, waste: Id)
    | PayInserting(household: Id, waste: Id, amount: Money)
    | PayCounting(due: Payment)
    | ConfirmReading(id: Id)
    | ConfirmKeying(id: Id, bill: Payment)
    | ConfirmUploading(id: Id, bill: Payment, key: Key)
    | ConfirmStamping(id: Id, bill: Payment, key: Key)
    | ConfirmUpdating(id: Id, bill: Payment, key: Key, paidAt: Time)
    | ConfirmCleaning(key: Key, error: Error)
    | ConfirmCounting(due: Payment)
    | CycleFinding(before: Time)
    | CycleCanceling(before: Time, ids: set<Id>)
    | CycleCounting(ids: set<Id>, hit: set<Id>)
    | Returned(outcome: Outcome)

  // ---- the outside world ----

  datatype Call =
    | Nothing
    | Db(write: Write)
    | ReadPending(household: Id)
    | ReadPickup(pickup: Id)
    | ReadPayment(payment: Id)
    | ReadExpired(before: Time)
    | PutObject(key: Key)
    | DeleteObject(key: Key)

  datatype Answer =
    | Done
    | Failed
    | Wrote(reply: Reply)
    | Flag(pending: bool)
    | PickupRow(pickup: Option<Pickup>)
    | PaymentRow(payment: Option<Payment>)
    | Ids(ids: set<Id>)

  /** Prometheus counters. */
  datatype Label =
    | PickupsCreated(kind: WasteType)
    | PickupsCompleted(kind: WasteType)
    | PickupsCanceled(kind: WasteType, auto: bool)
    | PaymentsCreated
    | PaymentsConfirmed
    | OrganicCancels
    | WorkerCycles
    | ExpiredFound

  type Counters = map<Label, nat>

  function Get(c: Counters, l: Label): nat {
    if l in c then c[l] else 0
  }

  function Add(c: Counters, l: Label, n: nat): Counters {
    c[l := Get(c, l) + n]
  }

  /** `nextId` bounds every uuid generated or named in a request so far, so a generated uuid
      never equals one that anybody has mentioned before. `leaked` is the ledger of failed
      cleanup deletes and `erased` the proofs of payments removed by cascade. */
  datatype World = World(
    now: Time, nextId: Id, db: Tables, objects: set<Key>, ops: map<OpId, Op>,
    counters: Counters, leaked: set<Key>, erased: set<Key>)

  function Init(now: Time): World {
    World(now, 0, Tables(map[], map[], map[], {}), {}, map[], map[], {}, {})
  }

  // ---- operations, step by step ----

  function Begin(w: World, r: Request): Op {
    match r
    case CreatePickup(household, kind, safetyCheck) => CreateChecking(household, kind, safetyCheck)
    case Schedule(id, date) => ScheduleReading(id, date)
    case Complete(id) => CompleteReading(id)
    case Cancel(id) => CancelUpdating(id)
    case CreatePayment(household, waste, _) => PayReading(household, waste)
    case Confirm(id, hasFile) => if hasFile then ConfirmReading(id) else Returned(Refused(Validation))
    case RunCycle(cutoff) => CycleFinding(w.now - cutoff)
  }

  /** The call an operation makes next; `newId` is the uuid an INSERT would generate. */
  function CallOf(op: Op, newId: Id): Call {
    match op
    case CreateChecking(household, _, _) => ReadPending(household)
    case CreateInserting(household, kind, safetyCheck, _) =>
      Db(Single(InsertPickup(newId, household, kind, safetyCheck)))
    case ScheduleReading(id, _) => ReadPickup(id)
    case ScheduleUpdating(id, date, _) => Db(Single(ScheduleStatement(id, date)))
    case CompleteReading(id) => ReadPickup(id)
    case CompleteWriting(id, snap, payment, stamp) =>
      Db(CompleteTx(id, payment, snap.household, CanonicalAmount(snap.kind), stamp))
    case CancelUpdating(id) => Db(Single(CancelStatement({id})))
    case CancelReading(id, _, _) => ReadPickup(id)
    case PayReading(_, waste) => ReadPickup(waste)
    case PayInserting(household, waste, amount) => Db(Single(InsertPayment(newId, household, waste, amount)))
    case ConfirmReading(id) => ReadPayment(id)
    case ConfirmUploading(_, _, key) => PutObject(key)
    case ConfirmUpdating(id, _, key, paidAt) => Db(Single(ConfirmPayment(id, key, paidAt)))
    case ConfirmCleaning(key, _) => DeleteObject(key)
    case CycleFinding(before) => ReadExpired(before)
    case CycleCanceling(_, ids) => Db(Single(CancelStatement(ids)))
    case _ => Nothing
  }

  function AfterScheduleRead(id: Id, date: Time, row: Option<Pickup>): Op {
    if row.None? then Returned(Refused(NotFound))
    else if row.value.status != Pending then Returned(Refused(Conflict))
    else if row.value.kind == Electronic && !row.value.safetyCheck then Returned(Refused(BusinessRule))
    else ScheduleChecking(id, date, row.value)
  }

  function AfterCompleteRead(id: Id, row: Option<Pickup>): Op {
    if row.None? then Returned(Refused(NotFound))
    else if row.value.status != Scheduled then Returned(Refused(Conflict))
    else CompleteBeginning(id, row.value)
  }

  function AfterCancelRead(done: bool, row: Option<Pickup>): Op {
    if row.None? then Returned(Refused(NotFound))
    else if done then CancelCounting(row.value)
    else Returned(CancelRefused(row.value.status == Completed))
  }

  function AfterPayRead(household: Id, waste: Id, row: Option<Pickup>): Op {
    if row.None? then Returned(Refused(NotFound))
    else if row.value.household != household then Returned(Refused(BusinessRule))
    else PayInserting(household, waste, CanonicalAmount(row.value.kind))
  }

  function AfterConfirmRead(id: Id, row: Option<Payment>): Op {
    if row.None? then Returned(Refused(NotFound))
    else if row.value.status != PaymentPending then Returned(Refused(Conflict))
    else ConfirmKeying(id, row.value)
  }

  /** Where an operation goes after a call that failed inside the database or the store. */
  function OnFailure(op: Op): Op {
    match op
    case ConfirmUpdating(_, _, key, _) => ConfirmCleaning(key, Internal)
    case ConfirmCleaning(_, error) => Returned(Refused(error))
    case CycleFinding(_) => Returned(CycleFailed)
    case CycleCanceling(_, _) => Returned(CycleFailed)
    case _ => Returned(Refused(Internal))
  }

  /** Where an operation goes after answer `a`, in the world `w` the call was made in. */
  function Resume(w: World, op: Op, a: Answer): Op {
    match (op, a)
    case (CreateCounting(row), _) => Returned(PickupReturned(row))
    case (CompleteCounting(row), _) => Returned(PickupReturned(row))
    case (CancelCounting(row), _) => Returned(PickupReturned(row))
    case (PayCounting(due), _) => Returned(PaymentReturned(due))
    case (ConfirmCounting(due), _) => Returned(PaymentReturned(due))
    case (CycleCounting(ids, _), _) => Returned(CycleSucceeded(|ids|))
    case (Returned(_), _) => op
    case (ScheduleChecking(id, date, snap), _) =>
      if date < w.now then Returned(Refused(Validation)) else ScheduleUpdating(id, date, snap)
    case (CompleteBeginning(id, snap), _) => CompleteWriting(id, snap, w.nextId, w.now)
    case (ConfirmKeying(id, bill), _) => ConfirmUploading(id, bill, Key(id, w.nextId))
    case (ConfirmStamping(id, bill, key), _) => ConfirmUpdating(id, bill, key, w.now)
    case (_, Failed) => OnFailure(op)
    case (CreateChecking(household, kind, safetyCheck), Flag(pending)) =>
      if pending then Returned(Refused(Conflict)) else CreateInserting(household, kind, safetyCheck, w.db.spent)
    case (CreateInserting(household, kind, safetyCheck, _), Wrote(r)) =>
      if r.Violated? then Returned(Refused(PickupCreateError(r.constraint)))
      else CreateCounting(NewPickup(w.nextId, household, kind, safetyCheck, w.now))
    case (ScheduleReading(id, date), PickupRow(row)) => AfterScheduleRead(id, date, row)
    case (ScheduleUpdating(_, date, snap), Wrote(r)) =>
      if r == Rows(0) then Returned(Refused(Conflict))
      else Returned(PickupReturned(snap.(status := Scheduled, pickupDate := Some(date))))
    case (CompleteReading(id), PickupRow(row)) => AfterCompleteRead(id, row)
    case (CompleteWriting(_, snap, _, _), Wrote(r)) =>
      if r.Violated? then Returned(Refused(PaymentCreateError(r.constraint)))
      else if r == Rows(0) then Returned(Refused(Conflict))
      else CompleteCounting(snap.(status := Completed))
    case (CancelUpdating(id), Wrote(r)) => CancelReading(id, r != Rows(0), FindPickup(w.db, id))
    case (CancelReading(_, done, _), PickupRow(row)) => AfterCancelRead(done, row)
    case (PayReading(household, waste), PickupRow(row)) => AfterPayRead(household, waste, row)
    case (PayInserting(household, waste, amount), Wrote(r)) =>
      if r.Violated? then Returned(Refused(PaymentCreateError(r.constraint)))
      else PayCounting(NewPayment(w.nextId, household, waste, amount, w.now))
    case (ConfirmReading(id), PaymentRow(row)) => AfterConfirmRead(id, row)
    case (ConfirmUploading(id, bill, key), Done) => ConfirmStamping(id, bill, key)
    case (ConfirmUpdating(_, bill, key, paidAt), Wrote(r)) =>
      if r == Rows(0) then ConfirmCleaning(key, Conflict)
      else ConfirmCounting(bill.(status := PaymentPaid, proof := Some(key), paymentDate := Some(paidAt)))
    case (ConfirmCleaning(_, error), Done) => Returned(Refused(error))
    case (CycleFinding(before), Ids(ids)) =>
      if ids == {} then Returned(CycleSucceeded(0)) else CycleCanceling(before, ids)
    case (CycleCanceling(_, ids), Wrote(_)) =>
      CycleCounting(ids, Matching(w.db, ids, {Pending, Scheduled}))
    case _ => op
  }

  /** Counter increments of one step. */
  function Count(c: Counters, op: Op, a: Answer): Counters {
    match op
    case CreateCounting(row) => Add(c, PickupsCreated(row.kind), 1)
    case CompleteCounting(row) => Add(Add(c, PickupsCompleted(row.kind), 1), PaymentsCreated, 1)
    case CancelCounting(row) => Add(c, PickupsCanceled(row.kind, false), 1)
    case PayCounting(_) => Add(c, PaymentsCreated, 1)
    case ConfirmCounting(_) => Add(c, PaymentsConfirmed, 1)
    case CycleFinding(_) => if a.Ids? then Add(c, ExpiredFound, |a.ids|) else c
    case CycleCounting(ids, _) => Add(Add(c, OrganicCancels, |ids|), PickupsCanceled(Organic, true), |ids|)
    case _ => c
  }

  function Proofs(t: Tables): set<Key> {
    set i | i in t.payments && t.payments[i].proof.Some? :: t.payments[i].proof.value
  }

  /** Replace the tables, remembering the proofs whose payments went away. */
  function WithDb(w: World, t: Tables): World {
    w.(db := t, erased := w.erased + (Proofs(w.db) - Proofs(t)))
  }

  /** The effect and answer of a call that does not fail. */
  function Perform(w: World, c: Call): (World, Answer) {
    match c
    case Nothing => (w, Done)
    case Db(a) => var (t, r) := Apply(w.db, w.now, a); (WithDb(w, t), Wrote(r))
    case ReadPending(household) => (w, Flag(HasPendingPayment(w.db, household)))
    case ReadPickup(id) => (w, PickupRow(FindPickup(w.db, id)))
    case ReadPayment(id) => (w, PaymentRow(FindPayment(w.db, id)))
    case ReadExpired(before) => (w, Ids(ExpiredOrganic(w.db, before)))
    case PutObject(key) => (w.(objects := w.objects + {key}), Done)
    case DeleteObject(key) => (w.(objects := w.objects - {key}), Done)
  }

  /** A failing call has no effect, except that a failed cleanup is entered in the ledger. */
  function Fail(w: World, c: Call): World {
    if c.DeleteObject? then w.(leaked := w.leaked + {c.key}) else w
  }

  function Act(w: World, c: Call, ok: bool): (World, Answer) {
    if ok || c.Nothing? then Perform(w, c) else (Fail(w, c), Failed)
  }

  function StepOp(w: World, o: OpId, ok: bool): World
    requires o in w.ops
  {
    var op := w.ops[o];
    var (w1, a) := Act(w, CallOf(op, w.nextId), ok);
    w1.(ops := w1.ops[o := Resume(w, op, a)], counters := Count(w1.counters, op, a), nextId := w1.nextId + 1)
  }

  // ---- events ----

  datatype Event =
    | Tick(elapsed: nat)
    | AddHousehold(owner: string, address: string)
    | RemoveHousehold(household: Id)
    | Start(op: OpId, request: Request)
    | Step(op: OpId, ok: bool)

  /** One more than the largest uuid a request names. */
  function Mentioned(r: Request): Id {
    match r
    case CreatePickup(household, _, _) => household + 1
    case Schedule(id, _) => id + 1
    case Complete(id) => id + 1
    case Cancel(id) => id + 1
    case CreatePayment(household, waste, _) => Max(household, waste) + 1
    case Confirm(id, _) => id + 1
    case RunCycle(_) => 0
  }

  function StartOp(w: World, o: OpId, r: Request): World {
    w.(ops := w.ops[o := Begin(w, r)], nextId := Max(w.nextId, Mentioned(r)),
       counters := if r.RunCycle? then Add(w.counters, WorkerCycles, 1) else w.counters)
  }

  /** An event that names an operation already started, or not started, changes nothing. */
  function Next(w: World, e: Event): World {
    match e
    case Tick(elapsed) => w.(now := w.now + elapsed)
    case AddHousehold(owner, address) =>
      WithDb(w, Exec(w.db, w.now, InsertHousehold(w.nextId, owner, address)).0).(nextId := w.nextId + 1)
    case RemoveHousehold(household) =>
      WithDb(w, Exec(w.db, w.now, DeleteHousehold(household)).0).(nextId := Max(w.nextId, household) + 1)
    case Start(o, r) => if o in w.ops then w else StartOp(w, o, r)
    case Step(o, ok) => if o in w.ops then StepOp(w, o, ok) else w
  }

  function Run(w: World, es: seq<Event>): World {
    if es == [] then w else Next(Run(w, es[..|es| - 1]), es[|es| - 1])
  }

  lemma {:induction false} RunConcat(w: World, a: seq<Event>, b: seq<Event>)
    ensures Run(w, a + b) == Run(Run(w, a), b)
  {
    if b == [] {
      assert a + b == a;
    } else {
      var n := |b| - 1;
      assert (a + b)[..|a + b| - 1] == a + b[..n];
      RunConcat(w, a, b[..n]);
    }
  }
}

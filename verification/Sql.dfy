/** The three tables and the SQL statements the repositories issue. Each statement is one
    atomic function from tables to tables and a reply. */
module Sql {
  import opened Domain

  /** `spent` is a history variable: the ids of all payments that ever were in the table. */
  datatype Tables = Tables(
    households: map<Id, Household>, pickups: map<Id, Pickup>, payments: map<Id, Payment>, spent: set<Id>)

  /** Constraint violations by SQLSTATE: 23503, 23505 and 23514. */
  datatype Violation = ForeignKey | Unique | Check

  datatype Reply = Rows(affected: nat) | Violated(constraint: Violation)

  /** Every UPDATE on waste_pickups has the same shape: `ids` and `from` are its WHERE
      clause, `to` and `date` its SET clause. */
  datatype Statement =
    | InsertHousehold(id: Id, owner: string, address: string)
    | DeleteHousehold(id: Id)
    | InsertPickup(id: Id, household: Id, kind: WasteType, safetyCheck: bool)
    | UpdatePickups(ids: set<Id>, from: set<PickupStatus>, to: PickupStatus, date: Option<Time>)
    | InsertPayment(id: Id, household: Id, waste: Id, amount: Money)
    | ConfirmPayment(id: Id, proof: Key, paidAt: Time)

  // ---- the UPDATE statements by name ----

  function ScheduleStatement(id: Id, date: Time): Statement {
    UpdatePickups({id}, {Pending}, Scheduled, Some(date))
  }

  /** UpdateStatus picks its WHERE clause by the target status; the default branch, reached
      by `pending`, has no status predicate at all. */
  function UpdateStatusStatement(id: Id, status: PickupStatus): Statement {
    UpdatePickups({id},
                  match status
                  case Completed => {Scheduled}
                  case Canceled => {Pending, Scheduled}
                  case Scheduled => {Pending}
                  case Pending => {Pending, Scheduled, Completed, Canceled},
                  status, None)
  }

  function CancelStatement(ids: set<Id>): Statement {
    UpdatePickups(ids, {Pending, Scheduled}, Canceled, None)
  }

  // ---- reads ----

  function FindPickup(t: Tables, id: Id): Option<Pickup> {
    if id in t.pickups then Some(t.pickups[id]) else None
  }

  function FindPayment(t: Tables, id: Id): Option<Payment> {
    if id in t.payments then Some(t.payments[id]) else None
  }

  predicate HasPendingPayment(t: Tables, household: Id) {
    exists i | i in t.payments :: t.payments[i].household == household && t.payments[i].status == PaymentPending
  }

  predicate HasPaymentFor(t: Tables, waste: Id) {
    exists i | i in t.payments :: t.payments[i].waste == waste
  }

  function ExpiredOrganic(t: Tables, before: Time): set<Id> {
    set i | i in t.pickups && t.pickups[i].kind == Organic && t.pickups[i].status == Pending
            && t.pickups[i].createdAt < before
  }

  // ---- rows ----

  function NewPickup(id: Id, household: Id, kind: WasteType, safetyCheck: bool, now: Time): Pickup {
    Pickup(id, household, kind, Pending, None, safetyCheck, now, now)
  }

  function NewPayment(id: Id, household: Id, waste: Id, amount: Money, now: Time): Payment {
    Payment(id, household, waste, amount, None, PaymentPending, None, now, now)
  }

  /** Ids of the rows that `WHERE id = ANY(ids) AND status IN (from)` selects. */
  function Matching(t: Tables, ids: set<Id>, from: set<PickupStatus>): set<Id> {
    set i | i in ids && i in t.pickups && t.pickups[i].status in from
  }

  function WithStatus(p: Pickup, to: PickupStatus, date: Option<Time>, now: Time): Pickup {
    p.(status := to, pickupDate := if date.Some? then date else p.pickupDate, updatedAt := now)
  }

  function SetPickups(t: Tables, hit: set<Id>, to: PickupStatus, date: Option<Time>, now: Time): Tables {
    t.(pickups := map i | i in t.pickups ::
         if i in hit then WithStatus(t.pickups[i], to, date, now) else t.pickups[i])
  }

  /** DELETE on a household with its two levels of ON DELETE CASCADE. */
  function Cascade(t: Tables, household: Id): Tables {
    Tables(t.households - {household},
           map i | i in t.pickups && t.pickups[i].household != household :: t.pickups[i],
           map i | i in t.payments
                   && t.payments[i].household != household
                   && !(t.payments[i].waste in t.pickups && t.pickups[t.payments[i].waste].household == household)
             :: t.payments[i],
           t.spent)
  }

  /** The first constraint an INSERT into payments violates: CHECK, then the two unique
      indexes, then the foreign keys. */
  function PaymentViolation(t: Tables, household: Id, waste: Id, amount: Money): Option<Violation> {
    if amount <= 0 then Some(Check)
    else if HasPaymentFor(t, waste) || HasPendingPayment(t, household) then Some(Unique)
    else if household !in t.households || waste !in t.pickups then Some(ForeignKey)
    else None
  }

  /** One statement, executed atomically at time `now`. */
  function Exec(t: Tables, now: Time, s: Statement): (Tables, Reply) {
    match s
    case InsertHousehold(id, owner, address) =>
      if owner == "" || address == "" then (t, Violated(Check))
      else (t.(households := t.households[id := Household(id, owner, address, now)]), Rows(1))
    case DeleteHousehold(id) =>
      if id in t.households then (Cascade(t, id), Rows(1)) else (t, Rows(0))
    case InsertPickup(id, household, kind, safetyCheck) =>
      if household !in t.households then (t, Violated(ForeignKey))
      else (t.(pickups := t.pickups[id := NewPickup(id, household, kind, safetyCheck, now)]), Rows(1))
    case UpdatePickups(ids, from, to, date) =>
      var hit := Matching(t, ids, from);
      (SetPickups(t, hit, to, date, now), Rows(|hit|))
    case InsertPayment(id, household, waste, amount) =>
      var bad := PaymentViolation(t, household, waste, amount);
      if bad.Some? then (t, Violated(bad.value))
      else (t.(payments := t.payments[id := NewPayment(id, household, waste, amount, now)], spent := t.spent + {id}),
            Rows(1))
    case ConfirmPayment(id, proof, paidAt) =>
      if id in t.payments && t.payments[id].status == PaymentPending then
        (t.(payments := t.payments[id := t.payments[id].(
              status := PaymentPaid, proof := Some(proof), paymentDate := Some(paidAt), updatedAt := now)]), Rows(1))
      else (t, Rows(0))
  }

  /** A unit of work that becomes visible at once: a single statement, or the transaction of
      Complete (status update, then payment insert, rolled back as a whole). A transaction has
      its uuid and its value of NOW() from before it takes effect. */
  datatype Write =
    | Single(statement: Statement)
    | CompleteTx(pickup: Id, payment: Id, household: Id, amount: Money, stamp: Time)

  function Apply(t: Tables, now: Time, a: Write): (Tables, Reply) {
    match a
    case Single(s) => Exec(t, now, s)
    case CompleteTx(pickup, payment, household, amount, stamp) =>
      var (t1, r1) := Exec(t, stamp, UpdateStatusStatement(pickup, Completed));
      if r1 == Rows(0) then (t, r1)
      else
        var (t2, r2) := Exec(t1, stamp, InsertPayment(payment, household, pickup, amount));
        if r2.Violated? then (t, r2) else (t2, r2)
  }

  /** mapPaymentCreateErr: constraint violations to domain errors. */
  function PaymentCreateError(v: Violation): Error {
    match v
    case ForeignKey => NotFound
    case Unique => Conflict
    case Check => Validation
  }

  /** mapPickupCreateErr. */
  function PickupCreateError(v: Violation): Error {
    if v == ForeignKey then NotFound else Internal
  }

  /** An UPDATE addressed to one id affects one row if that row is in an admitted status,
      and none otherwise. */
  lemma SingleRow(t: Tables, id: Id, from: set<PickupStatus>)
    ensures |Matching(t, {id}, from)| == (if id in t.pickups && t.pickups[id].status in from then 1 else 0)
  {
    assert Matching(t, {id}, from) == if id in t.pickups && t.pickups[id].status in from then {id} else {};
  }
  /** Updating the one row with id `i` is what UPDATE ... WHERE id = i does. */
  lemma UpdateOneRow(t: Tables, i: Id, from: set<PickupStatus>, to: PickupStatus, date: Option<Time>, now: Time)
    ensures var (u, r) := Exec(t, now, UpdatePickups({i}, from, to, date));
      if i in t.pickups && t.pickups[i].status in from then
        u == t.(pickups := t.pickups[i := WithStatus(t.pickups[i], to, date, now)]) && r == Rows(1)
      else u == t && r == Rows(0)
  {
    SingleRow(t, i, from);
    var hit := Matching(t, {i}, from);
    var u := SetPickups(t, hit, to, date, now);
    if i in t.pickups && t.pickups[i].status in from {
      assert hit == {i};
      assert u.pickups == t.pickups[i := WithStatus(t.pickups[i], to, date, now)];
    } else {
      assert hit == {};
      assert u.pickups == t.pickups;
    }
  }
}

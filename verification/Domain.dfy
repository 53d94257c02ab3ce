/** Entities, enumerations and fixed amounts of the waste collection service. */
module Domain {

  type Id = nat     // a uuid
  type Time = int   // instants and durations, in nanoseconds
  type Money = int  // hundredths of a currency unit, the scale of NUMERIC(12,2)

  datatype Option<+T> = None | Some(value: T)

  /** The sentinel errors every layer wraps. */
  datatype Error = NotFound | Conflict | BusinessRule | Validation | Internal

  datatype Result<+T> = Ok(value: T) | Err(error: Error)

  datatype WasteType = Organic | Plastic | Paper | Electronic

  datatype PickupStatus = Pending | Scheduled | Completed | Canceled

  datatype PaymentStatus = PaymentPending | PaymentPaid | PaymentFailed

  /** An object key `<payment id>/proof_<uuid>`. The proof URL prefixes it with a fixed
      endpoint and bucket, so the key stands for the URL as well. */
  datatype Key = Key(payment: Id, nonce: Id)

  datatype Household = Household(id: Id, owner: string, address: string, createdAt: Time)

  datatype Pickup = Pickup(
    id: Id, household: Id, kind: WasteType, status: PickupStatus, pickupDate: Option<Time>,
    safetyCheck: bool, createdAt: Time, updatedAt: Time)

  datatype Payment = Payment(
    id: Id, household: Id, waste: Id, amount: Money, paymentDate: Option<Time>,
    status: PaymentStatus, proof: Option<Key>, createdAt: Time, updatedAt: Time)

  function Max(a: int, b: int): int {
    if a < b then b else a
  }

  /** The fixed amount charged for one pickup. */
  function CanonicalAmount(kind: WasteType): Money {
    match kind
    case Organic => 50_000_00
    case Plastic => 50_000_00
    case Paper => 50_000_00
    case Electronic => 100_000_00
  }

  /** Position of a status in pending < scheduled < {completed, canceled}. */
  function Rank(s: PickupStatus): nat {
    match s
    case Pending => 0
    case Scheduled => 1
    case Completed => 2
    case Canceled => 2
  }

  /** What may happen to a pickup row while it exists: identity fields never change, the
      status climbs, final states absorb, the date is fixed once scheduled, and a row whose
      status stayed the same was not written at all. */
  predicate PickupEvolves(p: Pickup, q: Pickup) {
    && q == p.(status := q.status, pickupDate := q.pickupDate, updatedAt := q.updatedAt)
    && Rank(p.status) <= Rank(q.status)
    && (Rank(p.status) == Rank(q.status) ==> p == q)
    && (p.status != Pending ==> q.pickupDate == p.pickupDate)
  }

  /** What may happen to a payment row while it exists: nothing, or one confirmation. */
  predicate PaymentEvolves(p: Payment, q: Payment) {
    p != q ==>
      && p.status == PaymentPending && q.status == PaymentPaid
      && q == p.(status := PaymentPaid, paymentDate := q.paymentDate, proof := q.proof, updatedAt := q.updatedAt)
  }
}

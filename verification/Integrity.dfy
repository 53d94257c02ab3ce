/** What every table state satisfies, how tables evolve, and why each write the services
    issue keeps both although it was decided on an earlier snapshot. */
module Integrity {
  import opened Domain
  import opened Sql

  // ---- table invariants ----

  ghost predicate Keyed(t: Tables, n: Id) {
    && (forall i | i in t.households :: i < n && t.households[i].id == i)
    && (forall i | i in t.pickups :: i < n && t.pickups[i].id == i)
    && (forall i | i in t.payments :: i < n && t.payments[i].id == i)
    && (forall i | i in t.spent :: i < n)
    && t.payments.Keys <= t.spent
  }

  /** Foreign keys are closed, and a payment belongs to the household of its pickup. */
  ghost predicate Linked(t: Tables) {
    && (forall i | i in t.pickups :: t.pickups[i].household in t.households)
    && (forall i | i in t.payments ::
          && t.payments[i].household in t.households
          && t.payments[i].waste in t.pickups
          && t.payments[i].household == t.pickups[t.payments[i].waste].household)
  }

  ghost predicate OnePerPickup(t: Tables) {
    forall i, j | i in t.payments && j in t.payments && t.payments[i].waste == t.payments[j].waste :: i == j
  }

  ghost predicate OnePending(t: Tables) {
    forall i, j | i in t.payments && j in t.payments
                  && t.payments[i].household == t.payments[j].household
                  && t.payments[i].status == PaymentPending && t.payments[j].status == PaymentPending :: i == j
  }

  predicate PickupCoherent(p: Pickup) {
    && (p.kind == Electronic && p.status in {Scheduled, Completed} ==> p.safetyCheck)
    && (p.status == Pending ==> p.pickupDate.None?)
    && (p.status in {Scheduled, Completed} ==> p.pickupDate.Some?)
  }

  predicate PaymentCoherent(p: Payment) {
    && p.status != PaymentFailed
    && (p.status == PaymentPaid <==> p.paymentDate.Some?)
    && (p.status == PaymentPaid <==> p.proof.Some?)
    && (p.proof.Some? ==> p.proof.value.payment == p.id)
  }

  ghost predicate Coherent(t: Tables) {
    && (forall i | i in t.pickups :: PickupCoherent(t.pickups[i]))
    && (forall i | i in t.payments :: PaymentCoherent(t.payments[i]))
  }

  ghost predicate Priced(t: Tables) {
    forall i | i in t.payments && t.payments[i].waste in t.pickups ::
      t.payments[i].amount == CanonicalAmount(t.pickups[t.payments[i].waste].kind)
  }

  ghost predicate Settled(t: Tables) {
    forall i | i in t.pickups && t.pickups[i].status == Completed :: HasPaymentFor(t, i)
  }

  ghost predicate Sound(t: Tables, n: Id) {
    Keyed(t, n) && Linked(t) && OnePerPickup(t) && OnePending(t) && Coherent(t) && Priced(t) && Settled(t)
  }

  // ---- evolution ----

  /** `u` is a later state of `t`, when uuids from `n` on had not been generated in `t`: rows
      only evolve, new rows have new ids, and rows only vanish with their household. A payment
      may have an id drawn earlier, but never one that was in the table before. */
  ghost predicate Evolves(t: Tables, n: Id, u: Tables) {
    && (forall i | i in u.households :: (i in t.households && t.households[i] == u.households[i]) || n <= i)
    && (forall i | i in u.pickups :: (i in t.pickups && PickupEvolves(t.pickups[i], u.pickups[i])) || n <= i)
    && (forall i | i in u.payments ::
          (i in t.payments && PaymentEvolves(t.payments[i], u.payments[i])) || i !in t.spent)
    && t.spent <= u.spent
    && (forall i | i in t.pickups :: i in u.pickups || t.pickups[i].household !in u.households)
    && (forall i | i in t.payments :: i in u.payments || t.payments[i].household !in u.households)
  }

  lemma EvolvesTrans(t: Tables, n: Id, u: Tables, m: Id, v: Tables)
    requires Keyed(t, n) && Linked(t) && n <= m
    requires Evolves(t, n, u) && Evolves(u, m, v)
    ensures Evolves(t, n, v)
  {
  }

  // ---- the writes services issue ----

  /** The shapes of writes that services issue. UpdateStatus towards scheduled, canceled or
      pending has no caller. */
  predicate Issued(a: Write) {
    match a
    case CompleteTx(_, _, _, _, _) => true
    case Single(s) =>
      match s
      case UpdatePickups(ids, from, to, date) =>
        || (|ids| == 1 && from == {Pending} && to == Scheduled && date.Some?)
        || (from == {Pending, Scheduled} && to == Canceled && date.None?)
      case _ => true
  }

  /** Generated ids are new. The transaction of Complete has drawn its id before, and nobody
      has used it. */
  predicate Generated(t: Tables, n: Id, a: Write) {
    match a
    case CompleteTx(_, payment, _, _, _) => payment < n && payment !in t.spent
    case Single(s) =>
      match s
      case InsertHousehold(id, _, _) => id == n
      case InsertPickup(id, _, _, _) => id == n
      case InsertPayment(id, _, _, _) => id == n
      case _ => true
  }

  predicate RightPayment(t: Tables, waste: Id, household: Id, amount: Money) {
    waste in t.pickups ==>
      household == t.pickups[waste].household && amount == CanonicalAmount(t.pickups[waste].kind)
  }

  /** What the snapshot taken earlier must still guarantee when the write executes. */
  ghost predicate Justified(t: Tables, a: Write) {
    match a
    case CompleteTx(pickup, _, household, amount, _) => RightPayment(t, pickup, household, amount)
    case Single(s) =>
      match s
      case InsertPayment(_, household, waste, amount) => RightPayment(t, waste, household, amount)
      case ConfirmPayment(id, proof, _) => proof.payment == id
      case UpdatePickups(ids, _, to, _) =>
        to == Scheduled ==>
          forall i | i in ids && i in t.pickups && t.pickups[i].kind == Electronic :: t.pickups[i].safetyCheck
      case _ => true
  }

  /** The transaction of Complete, spelled out: it goes through exactly if the pickup is still
      scheduled, has no payment, its household has no pending payment and is known, and the
      amount is positive. A failing transaction leaves the tables as they were. */
  lemma CompleteTxCases(t: Tables, now: Time, a: Write)
    requires a.CompleteTx?
    ensures var (u, r) := Apply(t, now, a);
      var scheduled := a.pickup in t.pickups && t.pickups[a.pickup].status == Scheduled;
      var blocked := HasPaymentFor(t, a.pickup) || HasPendingPayment(t, a.household);
      && (r == Rows(1) <==> scheduled && a.amount > 0 && !blocked && a.household in t.households)
      && (r == Rows(0) <==> !scheduled)
      && (r == Violated(Check) <==> scheduled && a.amount <= 0)
      && (r == Violated(Unique) <==> scheduled && a.amount > 0 && blocked)
      && (r == Violated(ForeignKey) <==> scheduled && a.amount > 0 && !blocked && a.household !in t.households)
      && (r != Rows(1) ==> u == t)
      && (r == Rows(1) ==>
            u == t.(pickups := t.pickups[a.pickup := t.pickups[a.pickup].(status := Completed, updatedAt := a.stamp)],
                    payments := t.payments[a.payment :=
                      Payment(a.payment, a.household, a.pickup, a.amount,
                              None, PaymentPending, None, a.stamp, a.stamp)],
                    spent := t.spent + {a.payment}))
  {
    SingleRow(t, a.pickup, {Scheduled});
    var t1 := Exec(t, a.stamp, UpdateStatusStatement(a.pickup, Completed)).0;
    assert HasPaymentFor(t1, a.pickup) == HasPaymentFor(t, a.pickup);
    assert HasPendingPayment(t1, a.household) == HasPendingPayment(t, a.household);
    if a.pickup in t.pickups && t.pickups[a.pickup].status == Scheduled {
      assert t1.pickups == t.pickups[a.pickup := WithStatus(t.pickups[a.pickup], Completed, None, a.stamp)];
    }
  }

  // ---- every write keeps every invariant ----

  lemma SetPickupsEvolves(t: Tables, n: Id, now: Time, hit: set<Id>, to: PickupStatus, date: Option<Time>)
    requires forall i | i in hit && i in t.pickups ::
               Rank(t.pickups[i].status) < Rank(to) && (date.Some? ==> t.pickups[i].status == Pending)
    ensures Evolves(t, n, SetPickups(t, hit, to, date, now))
  {
  }

  lemma CascadeEvolves(t: Tables, n: Id, household: Id)
    requires Linked(t)
    ensures Evolves(t, n, Cascade(t, household))
  {
  }

  lemma InsertEvolves(t: Tables, n: Id, now: Time, s: Statement)
    requires Keyed(t, n) && (s.InsertPayment? || s.InsertPickup? || s.InsertHousehold?) && s.id == n
    ensures Evolves(t, n, Exec(t, now, s).0)
  {
  }

  lemma ConfirmPaymentEvolves(t: Tables, n: Id, now: Time, s: Statement)
    requires Keyed(t, n) && s.ConfirmPayment?
    ensures Evolves(t, n, Exec(t, now, s).0)
  {
  }

  lemma CompleteTxEvolves(t: Tables, n: Id, now: Time, a: Write)
    requires Keyed(t, n) && a.CompleteTx? && Generated(t, n, a)
    ensures Evolves(t, n, Apply(t, now, a).0)
  {
    CompleteTxCases(t, now, a);
  }

  /** Rows only evolve: whatever a write does, it never rewrites an identity field, never
      leaves a final state and never revives a row. */
  lemma ApplyEvolves(t: Tables, n: Id, now: Time, a: Write)
    requires Keyed(t, n) && Linked(t) && Issued(a) && Generated(t, n, a)
    ensures Evolves(t, n, Apply(t, now, a).0)
  {
    match a
    case CompleteTx(_, _, _, _, _) => CompleteTxEvolves(t, n, now, a);
    case Single(s) =>
      match s {
        case UpdatePickups(ids, from, to, date) =>
          SetPickupsEvolves(t, n, now, Matching(t, ids, from), to, date);
        case DeleteHousehold(id) => CascadeEvolves(t, n, id);
        case ConfirmPayment(_, _, _) => ConfirmPaymentEvolves(t, n, now, s);
        case _ => InsertEvolves(t, n, now, s);
      }
  }

  lemma ApplyKeyed(t: Tables, n: Id, now: Time, a: Write)
    requires Keyed(t, n) && Issued(a) && Generated(t, n, a)
    ensures Keyed(Apply(t, now, a).0, n + 1)
  {
    if a.CompleteTx? {
      CompleteTxCases(t, now, a);
    }
  }

  lemma ApplyLinked(t: Tables, n: Id, now: Time, a: Write)
    requires Keyed(t, n) && Linked(t) && Issued(a) && Generated(t, n, a) && Justified(t, a)
    ensures Linked(Apply(t, now, a).0)
  {
    if a.CompleteTx? {
      CompleteTxCases(t, now, a);
    }
  }

  /** The unique index on waste_id and the partial unique index on pending households. */
  lemma ApplyUnique(t: Tables, n: Id, now: Time, a: Write)
    requires Keyed(t, n) && OnePerPickup(t) && OnePending(t) && Issued(a) && Generated(t, n, a)
    ensures OnePerPickup(Apply(t, now, a).0) && OnePending(Apply(t, now, a).0)
  {
    if a.CompleteTx? {
      CompleteTxCases(t, now, a);
      hide Exec;
    } else {
      ExecUnique(t, n, now, a.statement);
    }
  }

  lemma ExecUnique(t: Tables, n: Id, now: Time, s: Statement)
    requires Keyed(t, n) && OnePerPickup(t) && OnePending(t) && Generated(t, n, Single(s))
    ensures OnePerPickup(Exec(t, now, s).0) && OnePending(Exec(t, now, s).0)
  {
  }

  lemma ApplyCoherent(t: Tables, n: Id, now: Time, a: Write)
    requires Keyed(t, n) && Coherent(t) && Issued(a) && Generated(t, n, a) && Justified(t, a)
    ensures Coherent(Apply(t, now, a).0)
  {
  }

  lemma ApplyPriced(t: Tables, n: Id, now: Time, a: Write)
    requires Keyed(t, n) && Linked(t) && Priced(t) && Issued(a) && Generated(t, n, a) && Justified(t, a)
    ensures Priced(Apply(t, now, a).0)
  {
  }

  /** A payment leaves only with its pickup, so a pickup that was completed keeps its payment. */
  lemma PaymentsStay(t: Tables, n: Id, u: Tables, i: Id)
    requires Keyed(t, n) && Linked(t) && Evolves(t, n, u)
    requires i in t.pickups && HasPaymentFor(t, i) && i in u.pickups && Linked(u)
    ensures HasPaymentFor(u, i)
  {
  }

  /** Completion happens only in the transaction that inserts the payment. */
  lemma ApplyCompletes(t: Tables, n: Id, now: Time, a: Write, i: Id)
    requires Keyed(t, n) && Issued(a) && Generated(t, n, a)
    requires i in Apply(t, now, a).0.pickups && Apply(t, now, a).0.pickups[i].status == Completed
    ensures (i in t.pickups && t.pickups[i].status == Completed) || HasPaymentFor(Apply(t, now, a).0, i)
  {
    if a.CompleteTx? {
      CompleteTxCases(t, now, a);
      var (u, r) := Apply(t, now, a);
      if r == Rows(1) && i == a.pickup {
        assert u.payments[a.payment].waste == i;
      }
    }
  }

  lemma ApplySettled(t: Tables, n: Id, now: Time, a: Write)
    requires Keyed(t, n) && Linked(t) && Settled(t) && Issued(a) && Generated(t, n, a) && Justified(t, a)
    ensures Settled(Apply(t, now, a).0)
  {
    var u := Apply(t, now, a).0;
    ApplyEvolves(t, n, now, a);
    ApplyLinked(t, n, now, a);
    forall i | i in u.pickups && u.pickups[i].status == Completed ensures HasPaymentFor(u, i) {
      ApplyCompletes(t, n, now, a, i);
      if i in t.pickups && t.pickups[i].status == Completed {
        PaymentsStay(t, n, u, i);
      }
    }
  }

  /** Every justified write keeps every table invariant. */
  lemma ApplySound(t: Tables, n: Id, now: Time, a: Write)
    requires Sound(t, n) && Issued(a) && Generated(t, n, a) && Justified(t, a)
    ensures Sound(Apply(t, now, a).0, n + 1) && Evolves(t, n, Apply(t, now, a).0)
  {
    ApplyKeyed(t, n, now, a);
    ApplyLinked(t, n, now, a);
    ApplyUnique(t, n, now, a);
    ApplyCoherent(t, n, now, a);
    ApplyPriced(t, n, now, a);
    ApplySettled(t, n, now, a);
    ApplyEvolves(t, n, now, a);
  }
}

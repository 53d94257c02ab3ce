/** What holds in every reachable state, spelled out for readers of the service. */
module Guarantees {
  import opened Domain
  import opened Sql
  import opened Integrity
  import opened Machine
  import opened Invariant

  /** Each completed pickup has exactly one payment, and every payment, from Complete or from
      direct creation, carries its pickup's household and the fixed amount for its type: 100000.00
      for electronic waste and 50000.00 for all other. */
  lemma CompletedHasOnePayment(now: Time, es: seq<Event>)
    ensures var t := Run(Init(now), es).db;
      && (forall i | i in t.pickups && t.pickups[i].status == Completed ::
            exists j | j in t.payments ::
              && t.payments[j].waste == i
              && forall k | k in t.payments && t.payments[k].waste == i :: k == j)
      && (forall j | j in t.payments ::
            && t.payments[j].waste in t.pickups
            && t.payments[j].household == t.pickups[t.payments[j].waste].household
            && t.payments[j].amount
               == if t.pickups[t.payments[j].waste].kind == Electronic then 100_000_00 else 50_000_00)
  {
    Reachable(now, es);
    var t := Run(Init(now), es).db;
    forall i | i in t.pickups && t.pickups[i].status == Completed
      ensures exists j | j in t.payments ::
                && t.payments[j].waste == i
                && forall k | k in t.payments && t.payments[k].waste == i :: k == j
    {
      var j :| j in t.payments && t.payments[j].waste == i;
      assert forall k | k in t.payments && t.payments[k].waste == i :: k == j;
    }
  }

  /** At most one payment per pickup, at most one pending payment per household, none failed. */
  lemma PaymentsAreUnique(now: Time, es: seq<Event>)
    ensures var t := Run(Init(now), es).db;
      forall i, j | i in t.payments && j in t.payments && i != j ::
        && t.payments[i].waste != t.payments[j].waste
        && (t.payments[i].household == t.payments[j].household ==>
              t.payments[i].status == PaymentPaid || t.payments[j].status == PaymentPaid)
  {
    Reachable(now, es);
  }

  /** A pickup has at most one payment ever: one that is there now and one that is there later
      are the same. */
  lemma OnePaymentEver(w: World, es: seq<Event>, j: Id, k: Id)
    requires Inv(w) && j in w.db.payments && k in Run(w, es).db.payments
    requires w.db.payments[j].waste == Run(w, es).db.payments[k].waste
    ensures j == k
  {
    hide Run, Inv;
    RunInv(w, es);
    TablesOf(w);
    TablesOf(Run(w, es));
    OneEver(w.db, w.nextId, Run(w, es).db, j, k);
  }

  lemma TablesOf(w: World)
    requires Inv(w)
    ensures Keyed(w.db, w.nextId) && Linked(w.db) && OnePerPickup(w.db)
  {
  }

  lemma OneEver(t: Tables, n: Id, u: Tables, j: Id, k: Id)
    requires Keyed(t, n) && Linked(t) && Evolves(t, n, u) && Linked(u) && OnePerPickup(u)
    requires j in t.payments && k in u.payments && t.payments[j].waste == u.payments[k].waste
    ensures j == k
  {
  }

  /** Dates, safety checks and proofs are present exactly where the status says so. */
  lemma FieldsCohere(now: Time, es: seq<Event>)
    ensures var t := Run(Init(now), es).db;
      && (forall i | i in t.pickups :: var p := t.pickups[i];
            && (p.status == Pending ==> p.pickupDate.None?)
            && (p.status in {Scheduled, Completed} ==> p.pickupDate.Some?)
            && (p.status in {Scheduled, Completed} && p.kind == Electronic ==> p.safetyCheck))
      && (forall i | i in t.payments :: var p := t.payments[i];
            && p.status in {PaymentPending, PaymentPaid}
            && (p.status == PaymentPaid <==> p.paymentDate.Some?)
            && (p.status == PaymentPaid <==> p.proof.Some?))
  {
    Reachable(now, es);
    assert Coherent(Run(Init(now), es).db);
  }

  /** Key `k` is the proof of a paid payment. */
  predicate IsProof(t: Tables, k: Key) {
    exists i | i in t.payments :: t.payments[i].status == PaymentPaid && t.payments[i].proof == Some(k)
  }

  /** Key `k` was uploaded by a Confirm that has not finished. */
  predicate IsHeld(w: World, k: Key) {
    exists o | o in w.ops :: Holds(w.ops[o]) && KeyOf(w.ops[o]) == Some(k)
  }

  lemma ProofsAreProofs(t: Tables, k: Key)
    requires Coherent(t)
    ensures k in Proofs(t) <==> IsProof(t, k)
  {
  }

  /** The object store and the database agree in every interleaving: a key is stored exactly
      if it is the proof of a paid payment, is held by an in-flight Confirm, is in the ledger
      of failed cleanups, or was orphaned by a cascade; and these exclude each other. */
  lemma StoreAgrees(now: Time, es: seq<Event>, k: Key)
    ensures var w := Run(Init(now), es);
      && (k in w.objects <==> IsProof(w.db, k) || IsHeld(w, k) || k in w.leaked || k in w.erased)
      && !(IsProof(w.db, k) && IsHeld(w, k))
      && (IsProof(w.db, k) || IsHeld(w, k) ==> k !in w.leaked && k !in w.erased)
      && !(k in w.leaked && k in w.erased)
  {
    Reachable(now, es);
    var w := Run(Init(now), es);
    ProofsAreProofs(w.db, k);
    assert k in Held(w) <==> IsHeld(w, k);
  }

  /** Two payments never share a proof object. */
  lemma ProofsAreDistinct(now: Time, es: seq<Event>, i: Id, j: Id)
    requires var t := Run(Init(now), es).db; i in t.payments && j in t.payments && t.payments[i].proof.Some?
    ensures var t := Run(Init(now), es).db; t.payments[i].proof == t.payments[j].proof ==> i == j
  {
    Reachable(now, es);
    var t := Run(Init(now), es).db;
    assert PaymentCoherent(t.payments[i]) && PaymentCoherent(t.payments[j]);
  }
}

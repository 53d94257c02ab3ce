/** Total revenue along the events of the service. */
module TotalRevenue {
  import opened Domain
  import opened Sql
  import opened Integrity
  import opened Machine
  import opened Invariant
  import opened Sums
  import opened Reports
  import opened Billing

  function Paid(t: Tables): set<Id> {
    WithStatusOf(t, PaymentPaid)
  }

  lemma SameRevenue(t: Tables, u: Tables)
    requires Paid(u) == Paid(t) && forall i | i in Paid(t) :: u.payments[i].amount == t.payments[i].amount
    ensures Revenue(u, PaymentPaid) == Revenue(t, PaymentPaid)
  {
    SumEqual(Paid(t), Amounts(u), Amounts(t));
  }

  lemma MoreRevenue(t: Tables, u: Tables, i: Id)
    requires i in u.payments && i !in Paid(t) && Paid(u) == Paid(t) + {i}
    requires forall j | j in Paid(t) :: u.payments[j].amount == t.payments[j].amount
    ensures Revenue(u, PaymentPaid) == Revenue(t, PaymentPaid) + u.payments[i].amount
  {
    SumTake(Paid(u), Amounts(u), i);
    assert Paid(u) - {i} == Paid(t);
    SumEqual(Paid(t), Amounts(u), Amounts(t));
  }

  lemma LessRevenue(t: Tables, u: Tables)
    requires Paid(u) <= Paid(t) && forall j | j in Paid(u) :: u.payments[j].amount == t.payments[j].amount
    requires forall j | j in Paid(t) :: 0 <= t.payments[j].amount
    ensures Revenue(u, PaymentPaid) == Revenue(t, PaymentPaid) - Sum(Paid(t) - Paid(u), Amounts(t))
    ensures Revenue(u, PaymentPaid) <= Revenue(t, PaymentPaid)
  {
    SumUnion(Paid(u), Paid(t) - Paid(u), Amounts(t));
    assert Paid(u) + (Paid(t) - Paid(u)) == Paid(t);
    SumEqual(Paid(u), Amounts(u), Amounts(t));
    SumNonNegative(Paid(t) - Paid(u), Amounts(t));
  }

  lemma ConfirmPaid(t: Tables, now: Time, s: Statement)
    requires s.ConfirmPayment? && s.id in t.payments && t.payments[s.id].status == PaymentPending
    ensures var u := Exec(t, now, s).0;
      && Paid(u) == Paid(t) + {s.id} && s.id !in Paid(t)
      && forall j | j in Paid(u) :: u.payments[j].amount == t.payments[j].amount
  {
  }

  lemma OtherPaid(t: Tables, n: Id, now: Time, a: Write)
    requires Keyed(t, n) && Issued(a) && Generated(t, n, a)
    requires !(a.Single? && a.statement.DeleteHousehold?)
    requires a.Single? && a.statement.ConfirmPayment? ==> Apply(t, now, a).1 == Rows(0)
    ensures var u := Apply(t, now, a).0;
      && Paid(u) == Paid(t)
      && forall j | j in Paid(u) :: u.payments[j].amount == t.payments[j].amount
  {
  }

  lemma DeletePaid(t: Tables, household: Id)
    ensures var u := Cascade(t, household);
      && Paid(u) <= Paid(t)
      && forall j | j in Paid(u) :: u.payments[j].amount == t.payments[j].amount
  {
  }

  /** The event confirms a payment. */
  predicate Confirms(w: World, e: Event) {
    && e.Step? && e.ok && e.op in w.ops && w.ops[e.op].ConfirmUpdating?
    && w.ops[e.op].id in w.db.payments && w.db.payments[w.ops[e.op].id].status == PaymentPending
  }

  lemma WriteOfConfirm(w: World, e: Event)
    requires WriteOf(w, e).Some? && WriteOf(w, e).value.Single? && WriteOf(w, e).value.statement.ConfirmPayment?
    ensures e.Step? && e.ok && e.op in w.ops && w.ops[e.op].ConfirmUpdating?
      && WriteOf(w, e).value.statement.id == w.ops[e.op].id
  {
  }

  /** Total revenue rises at each confirmed payment, by 100000.00 for electronic waste and by
      50000.00 for all other, and falls only when a household is deleted, by what its paid payments brought. */
  lemma RevenueMoves(w: World, e: Event)
    requires Inv(w)
    ensures var t, u := w.db, Next(w, e).db;
      if Confirms(w, e) then
        var p := t.payments[w.ops[e.op].id];
        && p.waste in t.pickups
        && Revenue(u, PaymentPaid) == Revenue(t, PaymentPaid)
             + if t.pickups[p.waste].kind == Electronic then 100_000_00 else 50_000_00
      else if e.RemoveHousehold? then
        && Revenue(u, PaymentPaid) == Revenue(t, PaymentPaid) - Sum(Paid(t) - Paid(u), Amounts(t))
        && Revenue(u, PaymentPaid) <= Revenue(t, PaymentPaid)
      else Revenue(u, PaymentPaid) == Revenue(t, PaymentPaid)
  {
    RevenueNeeds(w, e);
    hide Inv, Next, Revenue;
    if Confirms(w, e) {
      ConfirmRevenue(w, e);
    } else if e.RemoveHousehold? {
      DeleteRevenue(w, e);
    } else {
      SameOtherwise(w, e);
    }
  }

  lemma ConfirmRevenue(w: World, e: Event)
    requires Inv(w) && Confirms(w, e)
    ensures Revenue(Next(w, e).db, PaymentPaid)
         == Revenue(w.db, PaymentPaid) + w.db.payments[w.ops[e.op].id].amount
  {
    NextDb(w, e);
    WriteOfConfirms(w, e);
    hide Inv, Next, Revenue, WriteOf, CallOf;
    ConfirmPaid(w.db, w.now, WriteOf(w, e).value.statement);
    MoreRevenue(w.db, Next(w, e).db, w.ops[e.op].id);
  }

  lemma WriteOfConfirms(w: World, e: Event)
    requires Confirms(w, e)
    ensures WriteOf(w, e).Some? && WriteOf(w, e).value.Single?
    ensures var s := WriteOf(w, e).value.statement; s.ConfirmPayment? && s.id == w.ops[e.op].id
  {
  }

  lemma DeleteRevenue(w: World, e: Event)
    requires Inv(w) && e.RemoveHousehold?
    ensures var t, u := w.db, Next(w, e).db;
      && Revenue(u, PaymentPaid) == Revenue(t, PaymentPaid) - Sum(Paid(t) - Paid(u), Amounts(t))
      && Revenue(u, PaymentPaid) <= Revenue(t, PaymentPaid)
  {
    hide Inv, Next, Revenue;
    NextDb(w, e);
    PaidAmounts(w);
    if e.household in w.db.households {
      DeletePaid(w.db, e.household);
    }
    LessRevenue(w.db, Next(w, e).db);
  }

  lemma SameOtherwise(w: World, e: Event)
    requires Inv(w) && !Confirms(w, e) && !e.RemoveHousehold?
    ensures Revenue(Next(w, e).db, PaymentPaid) == Revenue(w.db, PaymentPaid)
  {
    RevenueNeeds(w, e);
    hide Inv, Next, Revenue;
    NextDb(w, e);
    var a := WriteOf(w, e);
    if a.Some? {
      if a.value.Single? && a.value.statement.ConfirmPayment? { WriteOfConfirm(w, e); }
      NoDelete(w, e);
      OtherPaid(w.db, w.nextId, w.now, a.value);
      SameRevenue(w.db, Next(w, e).db);
    }
  }

  lemma RevenueNeeds(w: World, e: Event)
    requires Inv(w)
    ensures Keyed(w.db, w.nextId)
    ensures Confirms(w, e) ==>
              var p := w.db.payments[w.ops[e.op].id];
              && p.waste in w.db.pickups
              && p.amount == if w.db.pickups[p.waste].kind == Electronic then 100_000_00 else 50_000_00
  {
  }

  lemma NoDelete(w: World, e: Event)
    requires WriteOf(w, e).Some? && !e.RemoveHousehold?
    ensures var a := WriteOf(w, e).value; !(a.Single? && a.statement.DeleteHousehold?)
  {
  }

  lemma PaidAmounts(w: World)
    requires Inv(w)
    ensures forall j | j in Paid(w.db) :: 0 <= w.db.payments[j].amount
  {
  }

  /** The pickup of payment `i` is electronic waste. */
  predicate ForElectronic(t: Tables, i: Id) {
    i in t.payments && t.payments[i].waste in t.pickups && t.pickups[t.payments[i].waste].kind == Electronic
  }

  function ElectronicPaid(t: Tables): set<Id> {
    set i | i in t.payments && t.payments[i].status == PaymentPaid && ForElectronic(t, i)
  }

  lemma {:induction false} SumOfAmounts(t: Tables, s: set<Id>, electronic: set<Id>)
    requires electronic <= s <= t.payments.Keys
    requires forall i | i in s :: t.payments[i].amount == if i in electronic then 100_000_00 else 50_000_00
    ensures Sum(s, Amounts(t)) == 50_000_00 * |s| + 50_000_00 * |electronic|
  {
    if s != {} {
      var x :| x in s;
      SumTake(s, Amounts(t), x);
      SumOfAmounts(t, s - {x}, electronic - {x});
      assert |electronic - {x}| == |electronic| - if x in electronic then 1 else 0;
    }
  }

  lemma AmountsAreFixed(w: World)
    requires Inv(w)
    ensures forall i | i in w.db.payments ::
              w.db.payments[i].amount == if ForElectronic(w.db, i) then 100_000_00 else 50_000_00
  {
  }

  /** In every reachable state total revenue is 50000.00 for each paid payment, and as much again
      for each of them that is for electronic waste. */
  lemma RevenueIsCanonical(now: Time, es: seq<Event>)
    ensures var t := Run(Init(now), es).db;
      var paid := set i | i in t.payments && t.payments[i].status == PaymentPaid;
      Revenue(t, PaymentPaid) == 50_000_00 * |paid| + 50_000_00 * |ElectronicPaid(t)|
  {
    hide Inv, Run, Revenue, ForElectronic;
    Reachable(now, es);
    AmountsAreFixed(Run(Init(now), es));
    RevenueOfFixed(Run(Init(now), es).db);
  }

  lemma RevenueOfFixed(t: Tables)
    requires forall i | i in t.payments ::
               t.payments[i].amount == if ForElectronic(t, i) then 100_000_00 else 50_000_00
    ensures var paid := set i | i in t.payments && t.payments[i].status == PaymentPaid;
      Revenue(t, PaymentPaid) == 50_000_00 * |paid| + 50_000_00 * |ElectronicPaid(t)|
  {
    var paid := set i | i in t.payments && t.payments[i].status == PaymentPaid;
    assert paid == Paid(t);
    hide ForElectronic, Sum, Amounts;
    SumOfAmounts(t, Paid(t), ElectronicPaid(t));
  }
}

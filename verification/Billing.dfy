/** Completion and billing over whole runs: when Complete goes through, when it never can,
    and how creations and confirmations of payments alternate. */
module Billing {
  import opened Domain
  import opened Sql
  import opened Integrity
  import opened Machine
  import opened Invariant

  // ---- Complete ----

  /** Past its status read, Complete goes through exactly if the pickup is still scheduled,
      has no payment, and its household has no pending payment. Otherwise it answers Conflict
      and leaves the tables unchanged. */
  lemma CompleteSucceedsIff(w: World, o: OpId)
    requires Inv(w) && o in w.ops && w.ops[o].CompleteWriting?
    ensures var CompleteWriting(id, snap, payment, stamp) := w.ops[o]; var v := Next(w, Step(o, true));
      var free := && id in w.db.pickups && w.db.pickups[id].status == Scheduled
                  && !HasPaymentFor(w.db, id) && !HasPendingPayment(w.db, snap.household);
      && (free ==> v.ops[o] == CompleteCounting(snap.(status := Completed)))
      && (free ==> v.db == w.db.(
            pickups := w.db.pickups[id := w.db.pickups[id].(status := Completed, updatedAt := stamp)],
            payments := w.db.payments[payment :=
              Payment(payment, snap.household, id, if snap.kind == Electronic then 100_000_00 else 50_000_00,
                      None, PaymentPending, None, stamp, stamp)],
            spent := w.db.spent + {payment}))
      && (!free ==> v.ops[o] == Returned(Refused(Conflict)) && v.db == w.db)
  {
    CompleteKnows(w, o);
    hide Inv, Next;
    var op := w.ops[o];
    CompleteStep(w, o);
    CompleteTxCases(w.db, w.now, CallOf(op, w.nextId).write);
  }

  lemma CompleteStep(w: World, o: OpId)
    requires o in w.ops && w.ops[o].CompleteWriting?
    ensures var op := w.ops[o]; var v := Next(w, Step(o, true));
      var (u, r) := Apply(w.db, w.now, CallOf(op, w.nextId).write);
      && v.db == u && o in v.ops
      && v.ops[o] == (if r.Violated? then Returned(Refused(PaymentCreateError(r.constraint)))
                      else if r == Rows(0) then Returned(Refused(Conflict))
                      else CompleteCounting(op.snap.(status := Completed)))
  {
  }

  /** Of the reasons to fail, an unknown household and a non-positive amount cannot occur. */
  lemma CompleteKnows(w: World, o: OpId)
    requires Inv(w) && o in w.ops && w.ops[o].CompleteWriting?
    ensures w.ops[o].id in w.db.pickups ==> w.ops[o].snap.household in w.db.households
  {
  }

  /** A pickup becomes completed only in a transaction of Complete, and only without a payment. */
  lemma CompletesUnpaid(t: Tables, n: Id, now: Time, a: Write, i: Id)
    requires Keyed(t, n) && Issued(a) && Generated(t, n, a)
    requires i in t.pickups && t.pickups[i].status != Completed
    requires i in Apply(t, now, a).0.pickups && Apply(t, now, a).0.pickups[i].status == Completed
    ensures a.CompleteTx? && a.pickup == i && !HasPaymentFor(t, i)
  {
  }

  /** The write an event issues, if any. */
  function WriteOf(w: World, e: Event): Option<Write> {
    match e
    case AddHousehold(owner, address) => Some(Single(InsertHousehold(w.nextId, owner, address)))
    case RemoveHousehold(household) => Some(Single(DeleteHousehold(household)))
    case Step(o, ok) =>
      if o in w.ops && ok && CallOf(w.ops[o], w.nextId).Db? then Some(CallOf(w.ops[o], w.nextId).write) else None
    case _ => None
  }

  /** The tables change by justified writes only. */
  lemma NextDb(w: World, e: Event)
    requires Inv(w)
    ensures var a := WriteOf(w, e);
      && Next(w, e).db == (if a.Some? then Apply(w.db, w.now, a.value).0 else w.db)
      && (a.Some? ==> Issued(a.value) && Generated(w.db, w.nextId, a.value) && Justified(w.db, a.value))
  {
    if e.Step? && e.op in w.ops {
      StepParts(w, e.op, e.ok);
      ActDb(w, CallOf(w.ops[e.op], w.nextId), e.ok);
      if CallOf(w.ops[e.op], w.nextId).Db? {
        CallJustified(w, w.ops[e.op]);
      }
    }
  }

  ghost predicate Unfinished(t: Tables, i: Id) {
    i in t.pickups ==> t.pickups[i].status != Completed && HasPaymentFor(t, i)
  }

  /** A pickup that has a payment before it is completed never becomes completed, in any
      continuation of the run. */
  lemma {:induction false} NeverCompleted(w: World, es: seq<Event>, i: Id)
    requires Inv(w) && i < w.nextId && Unfinished(w.db, i)
    ensures Unfinished(Run(w, es).db, i)
  {
    if es != [] {
      var v := Run(w, es[..|es| - 1]);
      var e := es[|es| - 1];
      NeverCompleted(w, es[..|es| - 1], i);
      RunInv(w, es[..|es| - 1]);
      UnfinishedStep(v, e, i);
    }
  }

  lemma UnfinishedStep(w: World, e: Event, i: Id)
    requires Inv(w) && i < w.nextId && Unfinished(w.db, i)
    ensures Unfinished(Next(w, e).db, i)
  {
    var u := Next(w, e).db;
    NextInv(w, e);
    NextDb(w, e);
    if i in u.pickups {
      PaymentsStay(w.db, w.nextId, u, i);
      if u.pickups[i].status == Completed {
        CompletesUnpaid(w.db, w.nextId, w.now, WriteOf(w, e).value, i);
      }
    }
  }

  // ---- payments of one household ----

  datatype Move = Opened | Paid

  predicate Opens(t: Tables, u: Tables, h: Id) {
    exists i | i in u.payments :: i !in t.payments && u.payments[i].household == h
  }

  predicate Settles(t: Tables, u: Tables, h: Id) {
    exists i | i in u.payments ::
      && i in t.payments && u.payments[i].household == h
      && t.payments[i].status == PaymentPending && u.payments[i].status == PaymentPaid
  }

  /** Payment creations and successful confirmations of household `h` along a run, in order. */
  ghost function Moves(w: World, es: seq<Event>, h: Id): seq<Move> {
    if es == [] then []
    else
      var t := Run(w, es[..|es| - 1]).db;
      var u := Run(w, es).db;
      Moves(w, es[..|es| - 1], h)
        + MoveOf(Opens(t, u, h), Settles(t, u, h))
  }

  function MoveOf(opens: bool, settles: bool): seq<Move> {
    (if opens then [Opened] else []) + (if settles then [Paid] else [])
  }

  predicate Alternates(m: seq<Move>) {
    forall k | 0 <= k < |m| :: m[k] == if k % 2 == 0 then Opened else Paid
  }

  lemma WriteOpens(t: Tables, n: Id, now: Time, a: Write, h: Id)
    requires Sound(t, n) && Issued(a) && Generated(t, n, a) && Justified(t, a)
    requires Opens(t, Apply(t, now, a).0, h)
    ensures var u := Apply(t, now, a).0; !HasPendingPayment(t, h) && HasPendingPayment(u, h) && !Settles(t, u, h)
  {
    var (u, r) := Apply(t, now, a);
    if a.CompleteTx? {
      CompleteTxCases(t, now, a);
    }
    var i :| i in u.payments && i !in t.payments && u.payments[i].household == h;
    assert i == (if a.CompleteTx? then a.payment else a.statement.id) && u.payments[i].status == PaymentPending;
  }

  lemma WriteSettles(t: Tables, n: Id, now: Time, a: Write, h: Id)
    requires Sound(t, n) && Issued(a) && Generated(t, n, a) && Justified(t, a)
    requires Settles(t, Apply(t, now, a).0, h)
    ensures var u := Apply(t, now, a).0; HasPendingPayment(t, h) && !HasPendingPayment(u, h)
  {
    var (u, r) := Apply(t, now, a);
    if a.CompleteTx? {
      CompleteTxCases(t, now, a);
    }
    assert a.Single? && a.statement.ConfirmPayment?;
  }

  lemma NothingMoved(t: Tables, n: Id, u: Tables, h: Id)
    requires Keyed(t, n) && Evolves(t, n, u) && !Opens(t, u, h) && !Settles(t, u, h) && h in u.households
    ensures HasPendingPayment(u, h) == HasPendingPayment(t, h)
  {
  }

  lemma WriteIdles(t: Tables, n: Id, now: Time, a: Write, h: Id)
    requires Sound(t, n) && Issued(a) && Generated(t, n, a) && Justified(t, a)
    requires var u := Apply(t, now, a).0; !Opens(t, u, h) && !Settles(t, u, h) && h in u.households
    ensures HasPendingPayment(Apply(t, now, a).0, h) == HasPendingPayment(t, h)
  {
    assert Keyed(t, n);
    hide Sound, Apply, Keyed;
    ApplySound(t, n, now, a);
    NothingMoved(t, n, Apply(t, now, a).0, h);
  }

  /** The payments of a household that appear, and those that become paid. */
  function NewPayments(t: Tables, u: Tables, h: Id): set<Id> {
    set i | i in u.payments && i !in t.payments && u.payments[i].household == h
  }

  function PaidPayments(t: Tables, u: Tables, h: Id): set<Id> {
    set i | i in u.payments && i in t.payments && u.payments[i].household == h
            && t.payments[i].status == PaymentPending && u.payments[i].status == PaymentPaid
  }

  lemma WriteMovesOne(t: Tables, now: Time, a: Write, h: Id)
    ensures var u := Apply(t, now, a).0;
      var moved := if a.CompleteTx? then {a.payment}
                   else if a.statement.InsertPayment? || a.statement.ConfirmPayment? then {a.statement.id} else {};
      NewPayments(t, u, h) <= moved && PaidPayments(t, u, h) <= moved
  {
    if a.CompleteTx? {
      CompleteTxCases(t, now, a);
      hide Apply;
    }
  }

  lemma InOne(s: set<Id>, x: set<Id>)
    requires s <= x && |x| <= 1
    ensures |s| <= 1
  {
    assert x == s + (x - s);
  }

  /** One event opens at most one payment of a household or settles at most one, not both. */
  lemma AtMostOneMoves(w: World, e: Event, h: Id)
    requires Inv(w)
    ensures var t, u := w.db, Next(w, e).db; |NewPayments(t, u, h)| + |PaidPayments(t, u, h)| <= 1
  {
    NextDb(w, e);
    hide Inv, Next, WriteOf;
    var t, u, a := w.db, Next(w, e).db, WriteOf(w, e);
    if a.Some? {
      WriteMovesOne(t, w.now, a.value, h);
      hide Apply;
      var moved := if a.value.CompleteTx? then {a.value.payment}
                   else if a.value.statement.InsertPayment? || a.value.statement.ConfirmPayment? then
                     {a.value.statement.id}
                   else {};
      assert NewPayments(t, u, h) !! PaidPayments(t, u, h);
      InOne(NewPayments(t, u, h) + PaidPayments(t, u, h), moved);
    } else {
      assert NewPayments(t, u, h) == {} && PaidPayments(t, u, h) == {};
    }
  }

  /** A payment of a household is opened or settled only when it may be. */
  lemma OneMove(w: World, e: Event, h: Id)
    requires Inv(w)
    ensures var t, u := w.db, Next(w, e).db;
      && (Opens(t, u, h) ==> !HasPendingPayment(t, h) && HasPendingPayment(u, h) && !Settles(t, u, h))
      && (Settles(t, u, h) ==> HasPendingPayment(t, h) && !HasPendingPayment(u, h))
      && (!Opens(t, u, h) && !Settles(t, u, h) && h in u.households ==>
            HasPendingPayment(u, h) == HasPendingPayment(t, h))
  {
    NextDb(w, e);
    var t, u := w.db, Next(w, e).db;
    var a := WriteOf(w, e);
    if a.Some? {
      if Opens(t, u, h) { WriteOpens(t, w.nextId, w.now, a.value, h); }
      else if Settles(t, u, h) { WriteSettles(t, w.nextId, w.now, a.value, h); }
      else if h in u.households { WriteIdles(t, w.nextId, w.now, a.value, h); }
    }
  }

  lemma PendingHasHousehold(t: Tables, n: Id, h: Id)
    requires Linked(t) && Keyed(t, n) && HasPendingPayment(t, h)
    ensures h in t.households && h < n
  {
  }

  lemma HouseholdsAge(w: World, e: Event, h: Id)
    requires Inv(w)
    ensures var v := Next(w, e);
      && w.nextId <= v.nextId
      && (h in v.db.households && h !in w.db.households ==> w.nextId <= h)
      && (HasPendingPayment(w.db, h) ==> h in w.db.households && h < w.nextId)
      && (HasPendingPayment(v.db, h) ==> h in v.db.households && h < v.nextId)
  {
    NextInv(w, e);
    if HasPendingPayment(w.db, h) { PendingHasHousehold(w.db, w.nextId, h); }
    if HasPendingPayment(Next(w, e).db, h) { PendingHasHousehold(Next(w, e).db, Next(w, e).nextId, h); }
  }

  /** The moves so far alternate, and while the household exists an odd number of moves is
      the same thing as a pending payment. */
  ghost predicate MovesOk(w: World, h: Id, m: seq<Move>) {
    && Alternates(m)
    && (h in w.db.households ==> (|m| % 2 == 1 <==> HasPendingPayment(w.db, h)))
    && (w.nextId <= h ==> m == [])
  }

  lemma AppendMove(m: seq<Move>, opens: bool, settles: bool, before: bool, after: bool)
    requires Alternates(m) && (opens || settles ==> (|m| % 2 == 1 <==> before))
    requires opens ==> !before && after && !settles
    requires settles ==> before && !after
    ensures Alternates(m + MoveOf(opens, settles))
    ensures opens || settles ==> (|m + MoveOf(opens, settles)| % 2 == 1 <==> after)
  {
  }

  lemma MovesStep(w: World, e: Event, h: Id, m: seq<Move>, v: World)
    requires Inv(w) && MovesOk(w, h, m) && v == Next(w, e)
    ensures MovesOk(v, h, m + MoveOf(Opens(w.db, v.db, h), Settles(w.db, v.db, h)))
  {
    hide Inv, Next;
    OneMove(w, e, h);
    HouseholdsAge(w, e, h);
    var opens, settles := Opens(w.db, v.db, h), Settles(w.db, v.db, h);
    AppendMove(m, opens, settles, HasPendingPayment(w.db, h), HasPendingPayment(v.db, h));
    if !opens && !settles {
      assert m + MoveOf(opens, settles) == m;
    }
  }

  lemma {:induction false} MovesAlternate(w: World, es: seq<Event>, h: Id)
    requires Inv(w) && MovesOk(w, h, [])
    ensures MovesOk(Run(w, es), h, Moves(w, es, h))
  {
    if es != [] {
      var before := es[..|es| - 1];
      MovesAlternate(w, before, h);
      RunInv(w, before);
      MovesStep(Run(w, before), es[|es| - 1], h, Moves(w, before, h), Run(w, es));
    }
  }

  /** From the empty service, the creations and confirmations of each household strictly
      alternate, starting with a creation; a payment is pending after an odd number of them. */
  lemma BillingAlternates(now: Time, es: seq<Event>, h: Id)
    ensures var v := Run(Init(now), es); var m := Moves(Init(now), es, h);
      && Alternates(m)
      && (h in v.db.households ==> (|m| % 2 == 1 <==> HasPendingPayment(v.db, h)))
  {
    Reachable(now, []);
    MovesAlternate(Init(now), es, h);
  }
}

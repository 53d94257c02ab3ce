/** Prometheus counters against the rows: every effect is counted once, when its operation
    gets round to it. */
module Tally {
  import opened Domain
  import opened Sql
  import opened Integrity
  import opened Machine
  import opened Invariant
  import opened Billing

  /** What a label counts, and which of its effects on the tables happened between `t` and `u`. */
  predicate Tallied(l: Label) {
    l.PickupsCreated? || l.PickupsCompleted? || l.PaymentsCreated? || l.PaymentsConfirmed?
  }

  function Effects(t: Tables, u: Tables, l: Label): set<Id> {
    match l
    case PickupsCreated(kind) => set i | i in u.pickups && i !in t.pickups && u.pickups[i].kind == kind
    case PickupsCompleted(kind) =>
      set i | i in u.pickups && i in t.pickups && u.pickups[i].kind == kind
              && u.pickups[i].status == Completed && t.pickups[i].status != Completed
    case PaymentsCreated => set i | i in u.payments && i !in t.payments
    case PaymentsConfirmed =>
      set i | i in u.payments && i in t.payments
              && u.payments[i].status == PaymentPaid && t.payments[i].status != PaymentPaid
    case _ => {}
  }

  ghost function TotalEffects(w: World, es: seq<Event>, l: Label): nat {
    if es == [] then 0
    else TotalEffects(w, es[..|es| - 1], l) + |Effects(Run(w, es[..|es| - 1]).db, Run(w, es).db, l)|
  }

  /** The increments an operation has earned and not yet made. */
  function Owes(op: Op): set<Label> {
    match op
    case CreateCounting(row) => {PickupsCreated(row.kind)}
    case CompleteCounting(row) => {PickupsCompleted(row.kind), PaymentsCreated}
    case PayCounting(_) => {PaymentsCreated}
    case ConfirmCounting(_) => {PaymentsConfirmed}
    case _ => {}
  }

  function Owing(w: World, l: Label): set<OpId> {
    set o | o in w.ops && l in Owes(w.ops[o])
  }

  lemma OwingUpdate(w: World, o: OpId, op: Op, v: World, l: Label)
    requires v.ops == w.ops[o := op]
    ensures |Owing(v, l)| == |Owing(w, l)| + (if l in Owes(op) then 1 else 0)
                           - (if o in w.ops && l in Owes(w.ops[o]) then 1 else 0)
  {
    hide Owes;
    var base := Owing(w, l) - {o};
    SameOthers(w, o, op, v, l, base);
    if o in w.ops && l in Owes(w.ops[o]) {
      assert Owing(w, l) == base + {o};
    } else {
      assert Owing(w, l) == base;
    }
  }

  lemma SameOthers(w: World, o: OpId, op: Op, v: World, l: Label, base: set<OpId>)
    requires v.ops == w.ops[o := op] && base == Owing(w, l) - {o}
    ensures Owing(v, l) == if l in Owes(op) then base + {o} else base
  {
  }

  /** The labels a write earns with reply `r`. */
  function Earned(t: Tables, a: Write, r: Reply): set<Label> {
    if r != Rows(1) then {}
    else
      match a
      case CompleteTx(pickup, _, _, _, _) =>
        if pickup in t.pickups then {PickupsCompleted(t.pickups[pickup].kind), PaymentsCreated} else {}
      case Single(s) =>
        match s
        case InsertPickup(_, _, kind, _) => {PickupsCreated(kind)}
        case InsertPayment(_, _, _, _) => {PaymentsCreated}
        case ConfirmPayment(_, _, _) => {PaymentsConfirmed}
        case _ => {}
  }

  lemma InsertEarns(t: Tables, n: Id, now: Time, s: Statement, l: Label)
    requires Keyed(t, n) && Generated(t, n, Single(s)) && (s.InsertHousehold? || s.InsertPickup? || s.InsertPayment?)
    ensures var (u, r) := Exec(t, now, s);
      Effects(t, u, l) == if l in Earned(t, Single(s), r) then {n} else {}
  {
  }

  lemma UpdateEarns(t: Tables, now: Time, s: Statement, l: Label)
    requires (s.UpdatePickups? && s.to != Completed) || s.DeleteHousehold? || s.ConfirmPayment?
    ensures var (u, r) := Exec(t, now, s);
      Effects(t, u, l) == if s.ConfirmPayment? && l in Earned(t, Single(s), r) then {s.id} else {}
  {
  }

  lemma CompletionEarns(t: Tables, n: Id, now: Time, a: Write, l: Label)
    requires Keyed(t, n) && a.CompleteTx? && Generated(t, n, a)
    ensures var (u, r) := Apply(t, now, a);
      Effects(t, u, l) == if l !in Earned(t, a, r) then {} else if l == PaymentsCreated then {a.payment} else {a.pickup}
  {
  }

  /** A write has exactly one effect for each label it earns. */
  lemma WriteEarns(t: Tables, n: Id, now: Time, a: Write, l: Label)
    requires Keyed(t, n) && Issued(a) && Generated(t, n, a)
    ensures var (u, r) := Apply(t, now, a);
      |Effects(t, u, l)| == if l in Earned(t, a, r) then 1 else 0
  {
    match a
    case CompleteTx(_, _, _, _, _) => CompletionEarns(t, n, now, a, l);
    case Single(s) =>
      if s.InsertHousehold? || s.InsertPickup? || s.InsertPayment? { InsertEarns(t, n, now, s, l); }
      else { UpdateEarns(t, now, s, l); }
  }

  /** An operation that has written owes exactly what its write earned. */
  lemma WriterOwes(w: World, op: Op)
    requires OpOk(w.db, w.nextId, op) && CallOf(op, w.nextId).Db?
    ensures var a := CallOf(op, w.nextId).write; var r := Apply(w.db, w.now, a).1;
      Owes(Resume(w, op, Wrote(r))) == Earned(w.db, a, r) && Owes(op) == {}
  {
  }

  /** A step that does not write changes no row and earns nothing. */
  lemma OthersOweNothing(w: World, o: OpId, ok: bool)
    requires o in w.ops && !(ok && CallOf(w.ops[o], w.nextId).Db?)
    ensures var v := StepOp(w, o, ok); v.db == w.db && Owes(v.ops[o]) == {}
  {
  }

  lemma NoEffects(t: Tables, l: Label)
    ensures Effects(t, t, l) == {}
  {
  }

  /** Counter, debt and effects move together in a step. */
  lemma StepTallies(w: World, o: OpId, ok: bool, l: Label)
    requires Inv(w) && o in w.ops && Tallied(l)
    ensures var v := StepOp(w, o, ok);
      Get(v.counters, l) + |Owing(v, l)| == Get(w.counters, l) + |Owing(w, l)| + |Effects(w.db, v.db, l)|
  {
    var op := w.ops[o];
    var c := CallOf(op, w.nextId);
    var v := StepOp(w, o, ok);
    StepParts(w, o, ok);
    OwingUpdate(w, o, v.ops[o], v, l);
    CounterPays(w, o, ok, l);
    if ok && c.Db? {
      CallJustified(w, op);
      WriterOwes(w, op);
      WriteEarns(w.db, w.nextId, w.now, c.write, l);
      ActDb(w, c, ok);
    } else {
      OthersOweNothing(w, o, ok);
      NoEffects(w.db, l);
    }
  }

  lemma CounterPays(w: World, o: OpId, ok: bool, l: Label)
    requires o in w.ops && Tallied(l)
    ensures Get(StepOp(w, o, ok).counters, l) == Get(w.counters, l) + if l in Owes(w.ops[o]) then 1 else 0
  {
  }

  lemma EventTallies(w: World, e: Event, l: Label)
    requires Inv(w) && Tallied(l)
    ensures var v := Next(w, e);
      Get(v.counters, l) + |Owing(v, l)| == Get(w.counters, l) + |Owing(w, l)| + |Effects(w.db, v.db, l)|
  {
    hide StepOp, Effects;
    NoEffects(w.db, l);
    match e
    case Step(o, ok) => if o in w.ops { StepTallies(w, o, ok, l); }
    case Start(o, r) =>
      if o !in w.ops {
        OwingUpdate(w, o, Begin(w, r), Next(w, e), l);
      }
    case Tick(_) => assert Owing(Next(w, e), l) == Owing(w, l);
    case _ =>
      var v := Next(w, e);
      NextDb(w, e);
      WriteEarns(w.db, w.nextId, w.now, WriteOf(w, e).value, l);
      assert Owing(v, l) == Owing(w, l);
  }

  /** Over every run, each business counter plus the increments still owed by operations in
      flight is the number of rows that were really created, completed or confirmed. */
  lemma {:induction false} CountersAreExact(now: Time, es: seq<Event>, l: Label)
    requires Tallied(l)
    ensures var v := Run(Init(now), es);
      Get(v.counters, l) + |Owing(v, l)| == TotalEffects(Init(now), es, l)
  {
    if es == [] {
      assert Owing(Init(now), l) == {};
    } else {
      CountersAreExact(now, es[..|es| - 1], l);
      Reachable(now, es[..|es| - 1]);
      EventTallies(Run(Init(now), es[..|es| - 1]), es[|es| - 1], l);
    }
  }
}

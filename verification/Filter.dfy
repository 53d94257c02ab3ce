/** The dynamic query of the payment list: conditions with numbered placeholders, bound to an
    argument list, evaluated under SQL's three-valued logic. */
module Filter {
  import opened Domain
  import opened Sql
  import opened Integrity

  datatype PaymentFilter = PaymentFilter(
    household: Option<Id>, status: Option<PaymentStatus>, dateFrom: Option<Time>, dateTo: Option<Time>)

  // ---- queries ----

  datatype Comparison = HouseholdIs | StatusIs | PaidFrom | PaidUntil

  /** `household_id = $n`, `status = $n`, `payment_date >= $n` or `payment_date <= $n`. */
  datatype Condition = Condition(test: Comparison, placeholder: nat)

  datatype Argument = IdArg(id: Id) | StatusArg(status: PaymentStatus) | TimeArg(time: Time) | IntArg(n: int)

  /** SQL truth values; Fault is a statement the database rejects. */
  datatype Truth = True | False | Unknown | Fault

  function Of(b: bool): Truth {
    if b then True else False
  }

  function And(a: Truth, b: Truth): Truth {
    if a == Fault || b == Fault then Fault
    else if a == False || b == False then False
    else if a == Unknown || b == Unknown then Unknown
    else True
  }

  function Evaluate(c: Condition, args: seq<Argument>, p: Payment): Truth {
    if c.placeholder == 0 || c.placeholder > |args| then Fault
    else
      match (c.test, args[c.placeholder - 1])
      case (HouseholdIs, IdArg(id)) => Of(p.household == id)
      case (StatusIs, StatusArg(status)) => Of(p.status == status)
      case (PaidFrom, TimeArg(time)) => if p.paymentDate.None? then Unknown else Of(p.paymentDate.value >= time)
      case (PaidUntil, TimeArg(time)) => if p.paymentDate.None? then Unknown else Of(p.paymentDate.value <= time)
      case _ => Fault
  }

  /** The WHERE clause: the conjunction of the conditions, true when there are none. */
  function Where(conds: seq<Condition>, args: seq<Argument>, p: Payment): Truth {
    if conds == [] then True
    else And(Where(conds[..|conds| - 1], args, p), Evaluate(conds[|conds| - 1], args, p))
  }

  // ---- what a filter means ----

  predicate Meets(f: PaymentFilter, p: Payment) {
    && (f.household.Some? ==> p.household == f.household.value)
    && (f.status.Some? ==> p.status == f.status.value)
    && (f.dateFrom.Some? ==> p.paymentDate.Some? && f.dateFrom.value <= p.paymentDate.value)
    && (f.dateTo.Some? ==> p.paymentDate.Some? && p.paymentDate.value <= f.dateTo.value)
  }

  /** The clause selects exactly the rows that meet the filter, and is never rejected. */
  ghost predicate Expresses(conds: seq<Condition>, args: seq<Argument>, f: PaymentFilter) {
    forall p :: Where(conds, args, p) != Fault && (Where(conds, args, p) == True <==> Meets(f, p))
  }

  ghost predicate Bound(conds: seq<Condition>, args: seq<Argument>) {
    forall k | 0 <= k < |conds| :: 1 <= conds[k].placeholder <= |args|
  }

  /** Arguments appended later do not disturb placeholders bound earlier, so the count query
      and the page query select the same rows. */
  lemma {:induction false} MoreArguments(conds: seq<Condition>, args: seq<Argument>, extra: seq<Argument>, p: Payment)
    requires Bound(conds, args)
    ensures Where(conds, args + extra, p) == Where(conds, args, p)
  {
    if conds != [] {
      MoreArguments(conds[..|conds| - 1], args, extra, p);
    }
  }

  /** Append one condition with the next placeholder and its argument. */
  lemma AppendCondition(
    conds: seq<Condition>, args: seq<Argument>, test: Comparison, a: Argument, f: PaymentFilter, g: PaymentFilter)
    requires Bound(conds, args) && Expresses(conds, args, f)
    requires forall p :: var v := Evaluate(Condition(test, 1), [a], p);
               v != Fault && (Meets(g, p) <==> Meets(f, p) && v == True)
    ensures var conds' := conds + [Condition(test, |args| + 1)];
      Bound(conds', args + [a]) && Expresses(conds', args + [a], g)
  {
    var c := Condition(test, |args| + 1);
    var conds' := conds + [c];
    forall p ensures Where(conds', args + [a], p) == And(Where(conds, args, p), Evaluate(Condition(test, 1), [a], p)) {
      assert conds'[..|conds' | - 1] == conds;
      MoreArguments(conds, args, [a], p);
    }
  }

  // ---- the builder ----

  const NO_FILTER := PaymentFilter(None, None, None, None)

  /** Conditions and arguments built so far, and the next free placeholder, say filter `f`. */
  ghost predicate Built(conds: seq<Condition>, args: seq<Argument>, n: nat, f: PaymentFilter) {
    && Expresses(conds, args, f)
    && n == |args| + 1 && |conds| == |args|
    && forall k | 0 <= k < |conds| :: conds[k].placeholder == k + 1
  }

  lemma BuildStep(
    conds: seq<Condition>, args: seq<Argument>, n: nat, test: Comparison, a: Argument,
    f: PaymentFilter, g: PaymentFilter)
    requires Built(conds, args, n, f)
    requires match (test, a)
             case (HouseholdIs, IdArg(id)) => f.household.None? && g == f.(household := Some(id))
             case (StatusIs, StatusArg(status)) => f.status.None? && g == f.(status := Some(status))
             case (PaidFrom, TimeArg(time)) => f.dateFrom.None? && g == f.(dateFrom := Some(time))
             case (PaidUntil, TimeArg(time)) => f.dateTo.None? && g == f.(dateTo := Some(time))
             case _ => false
    ensures Built(conds + [Condition(test, n)], args + [a], n + 1, g)
  {
    AppendCondition(conds, args, test, a, f, g);
  }

  /** Build conditions, arguments and the next free placeholder from whichever of the four
      filters are given. */
  method BuildFilter(f: PaymentFilter) returns (conds: seq<Condition>, args: seq<Argument>, n: nat)
    ensures Expresses(conds, args, f)
    ensures Bound(conds, args) && n == |args| + 1
    ensures |conds| == |args| && forall k | 0 <= k < |conds| :: conds[k].placeholder == k + 1
  {
    conds := [];
    args := [];
    n := 1;
    ghost var done := NO_FILTER;
    assert Built(conds, args, n, done);
    if f.household.Some? {
      BuildStep(conds, args, n, HouseholdIs, IdArg(f.household.value), done, done.(household := f.household));
      done := done.(household := f.household);
      conds := conds + [Condition(HouseholdIs, n)];
      args := args + [IdArg(f.household.value)];
      n := n + 1;
    }
    if f.status.Some? {
      BuildStep(conds, args, n, StatusIs, StatusArg(f.status.value), done, done.(status := f.status));
      done := done.(status := f.status);
      conds := conds + [Condition(StatusIs, n)];
      args := args + [StatusArg(f.status.value)];
      n := n + 1;
    }
    if f.dateFrom.Some? {
      BuildStep(conds, args, n, PaidFrom, TimeArg(f.dateFrom.value), done, done.(dateFrom := f.dateFrom));
      done := done.(dateFrom := f.dateFrom);
      conds := conds + [Condition(PaidFrom, n)];
      args := args + [TimeArg(f.dateFrom.value)];
      n := n + 1;
    }
    if f.dateTo.Some? {
      BuildStep(conds, args, n, PaidUntil, TimeArg(f.dateTo.value), done, done.(dateTo := f.dateTo));
      done := done.(dateTo := f.dateTo);
      conds := conds + [Condition(PaidUntil, n)];
      args := args + [TimeArg(f.dateTo.value)];
      n := n + 1;
    }
    assert done == f;
  }

  /** Wherever payment dates are coherent, a date filter returns only paid payments. */
  lemma DateFilterFindsPaid(t: Tables, f: PaymentFilter, i: Id)
    requires Coherent(t) && i in t.payments && Meets(f, t.payments[i])
    requires f.dateFrom.Some? || f.dateTo.Some?
    ensures t.payments[i].status == PaymentPaid
  {
  }
}

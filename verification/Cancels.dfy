/** The two counters of canceled pickups, automatic and manual, against the rows that the
    worker and Cancel really cancel over a run. */
module Cancels {
  import opened Domain
  import opened Sql
  import opened Machine
  import opened Invariant
  import opened Answers
  import opened Sums
  import opened Cycle

  // ---- sums over the operations in flight ----

  ghost function Weights(ops: map<OpId, Op>, weight: Op -> int): Id -> int {
    o => if o in ops then weight(ops[o]) else 0
  }

  ghost function InFlight(ops: map<OpId, Op>, weight: Op -> int): int {
    Sum(ops.Keys, Weights(ops, weight))
  }

  lemma OneMoves(ops: map<OpId, Op>, o: OpId, op: Op, weight: Op -> int)
    ensures InFlight(ops[o := op], weight)
         == InFlight(ops, weight) - (if o in ops then weight(ops[o]) else 0) + weight(op)
  {
    var after := ops[o := op];
    var others := ops.Keys - {o};
    SumEqual(others, Weights(after, weight), Weights(ops, weight));
    SumTake(after.Keys, Weights(after, weight), o);
    assert after.Keys - {o} == others;
    if o in ops {
      SumTake(ops.Keys, Weights(ops, weight), o);
    } else {
      assert ops.Keys == others;
    }
  }

  // ---- the worker ----

  /** The event is a successful bulk cancel. */
  predicate IsBulk(w: World, e: Event) {
    e.Step? && e.ok && e.op in w.ops && w.ops[e.op].CycleCanceling?
  }

  /** Rows that bulk cancels really changed along a run, and ids they were given. */
  ghost function AutoWritten(w: World, es: seq<Event>): nat {
    if es == [] then 0
    else
      var v := Run(w, es[..|es| - 1]); var e := es[|es| - 1];
      AutoWritten(w, es[..|es| - 1]) + if IsBulk(v, e) then |Written(v.db, Next(v, e).db)| else 0
  }

  ghost function AutoListed(w: World, es: seq<Event>): nat {
    if es == [] then 0
    else
      var v := Run(w, es[..|es| - 1]); var e := es[|es| - 1];
      AutoListed(w, es[..|es| - 1]) + if IsBulk(v, e) then |v.ops[e.op].ids| else 0
  }

  /** Rows canceled, and ids listed, by a cycle that has not reported yet. */
  function HitOf(op: Op): int {
    if op.CycleCounting? then |op.hit| else 0
  }

  function ListedOf(op: Op): int {
    if op.CycleCounting? then |op.ids| else 0
  }

  /** One event in the worker's account. */
  lemma AutoMoves(w: World, e: Event)
    requires OpsOk(w)
    ensures var v := Next(w, e);
      var reports := e.Step? && e.op in w.ops && w.ops[e.op].CycleCounting?;
      var hits, ids := if reports then |w.ops[e.op].hit| else 0, if reports then |w.ops[e.op].ids| else 0;
      && InFlight(v.ops, HitOf) == InFlight(w.ops, HitOf) - hits
                                   + (if IsBulk(w, e) then |Written(w.db, v.db)| else 0)
      && InFlight(v.ops, ListedOf) == InFlight(w.ops, ListedOf) - ids
                                      + (if IsBulk(w, e) then |w.ops[e.op].ids| else 0)
      && Get(v.counters, OrganicCancels) == Get(w.counters, OrganicCancels) + ids
      && Get(v.counters, PickupsCanceled(Organic, true)) == Get(w.counters, PickupsCanceled(Organic, true)) + ids
      && hits <= ids
  {
    hide Next, InFlight, OpsOk, Get, Written;
    var v := Next(w, e);
    OpsAfter(w, e);
    AutoCounts(w, e);
    if e.Step? && e.op in w.ops {
      OneMoves(w.ops, e.op, v.ops[e.op], HitOf);
      OneMoves(w.ops, e.op, v.ops[e.op], ListedOf);
      if IsBulk(w, e) {
        BulkDecides(w, e.op);
      } else {
        NoneCounting(w, e.op, e.ok);
        HitsListed(w, e.op);
      }
    } else if e.Start? && e.op !in w.ops {
      OneMoves(w.ops, e.op, Begin(w, e.request), HitOf);
      OneMoves(w.ops, e.op, Begin(w, e.request), ListedOf);
    }
  }

  lemma HitsListed(w: World, o: OpId)
    requires OpsOk(w) && o in w.ops
    ensures w.ops[o].CycleCounting? ==> |w.ops[o].hit| <= |w.ops[o].ids|
  {
    if w.ops[o].CycleCounting? {
      assert OpOk(w.db, w.nextId, w.ops[o]);
      HitsFit(w.ops[o].hit, w.ops[o].ids);
    }
  }

  lemma NoneCounting(w: World, o: OpId, ok: bool)
    requires o in w.ops && !(ok && w.ops[o].CycleCanceling?)
    ensures !Next(w, Step(o, ok)).ops[o].CycleCounting?
  {
  }

  lemma AutoCounts(w: World, e: Event)
    ensures var v := Next(w, e);
      var n := if e.Step? && e.op in w.ops && w.ops[e.op].CycleCounting? then |w.ops[e.op].ids| else 0;
      && Get(v.counters, OrganicCancels) == Get(w.counters, OrganicCancels) + n
      && Get(v.counters, PickupsCanceled(Organic, true)) == Get(w.counters, PickupsCanceled(Organic, true)) + n
  {
  }

  lemma {:induction false} HitsFit(hit: set<Id>, ids: set<Id>)
    requires hit <= ids
    ensures |hit| <= |ids|
  {
    assert ids == hit + (ids - hit);
  }

  lemma NothingInFlight(now: Time, weight: Op -> int)
    ensures InFlight(Init(now).ops, weight) == 0
  {
  }

  /** Over every run, the exported counter, plus what cycles still have to report, is the number
      of ids given to successful bulk cancels. */
  lemma {:induction false} ListedIsCounted(now: Time, es: seq<Event>)
    ensures var v := Run(Init(now), es);
      && AutoListed(Init(now), es) == Get(v.counters, OrganicCancels) + InFlight(v.ops, ListedOf)
      && Get(v.counters, PickupsCanceled(Organic, true)) == Get(v.counters, OrganicCancels)
  {
    NothingInFlight(now, ListedOf);
    if es != [] {
      hide Next, Inv, InFlight;
      var before := es[..|es| - 1];
      ListedIsCounted(now, before);
      Reachable(now, before);
      OpsAreOk(Run(Init(now), before));
      AutoMoves(Run(Init(now), before), es[|es| - 1]);
    }
  }

  lemma OpsAreOk(w: World)
    requires Inv(w)
    ensures OpsOk(w)
  {
  }

  /** Over every run, the rows that the worker really canceled are at most the exported counter
      plus those of cycles that have not reported yet: the counter covers every row canceled by
      a cycle that reported success. */
  lemma {:induction false} CounterCovers(now: Time, es: seq<Event>)
    ensures var v := Run(Init(now), es);
      AutoWritten(Init(now), es) - InFlight(v.ops, HitOf) <= Get(v.counters, OrganicCancels)
  {
    NothingInFlight(now, HitOf);
    if es != [] {
      hide Next, Inv, InFlight;
      var before := es[..|es| - 1];
      CounterCovers(now, before);
      Reachable(now, before);
      OpsAreOk(Run(Init(now), before));
      AutoMoves(Run(Init(now), before), es[|es| - 1]);
    }
  }

  // ---- Cancel ----

  /** The event is the update of a Cancel, and it cancels a pickup of this type. */
  predicate CancelsOne(w: World, e: Event, kind: WasteType) {
    && e.Step? && e.ok && e.op in w.ops && w.ops[e.op].CancelUpdating? && w.ops[e.op].id in w.db.pickups
    && var p := w.db.pickups[w.ops[e.op].id]; p.kind == kind && p.status in {Pending, Scheduled}
  }

  /** The event is the second read of a Cancel that has canceled a pickup of this type, and it
      fails or finds nothing: the cancel is never counted. */
  predicate LosesOne(w: World, e: Event, kind: WasteType) {
    && e.Step? && e.op in w.ops && w.ops[e.op].CancelReading? && w.ops[e.op].done
    && w.ops[e.op].seen.Some? && w.ops[e.op].seen.value.kind == kind
    && !(e.ok && w.ops[e.op].id in w.db.pickups)
  }

  ghost function ManualCancels(w: World, es: seq<Event>, kind: WasteType): nat {
    if es == [] then 0
    else ManualCancels(w, es[..|es| - 1], kind)
         + if CancelsOne(Run(w, es[..|es| - 1]), es[|es| - 1], kind) then 1 else 0
  }

  ghost function NeverCounted(w: World, es: seq<Event>, kind: WasteType): nat {
    if es == [] then 0
    else NeverCounted(w, es[..|es| - 1], kind)
         + if LosesOne(Run(w, es[..|es| - 1]), es[|es| - 1], kind) then 1 else 0
  }

  /** The operation has canceled a pickup of this type and has still to count it. */
  function OwesCancel(kind: WasteType): Op -> int {
    (op: Op) =>
      match op
      case CancelReading(_, done, seen) => if done && seen.Some? && seen.value.kind == kind then 1 else 0
      case CancelCounting(row) => if row.kind == kind then 1 else 0
      case _ => 0
  }

  ghost predicate StepBalances(w: World, o: OpId, ok: bool, kind: WasteType)
    requires o in w.ops
  {
    var e := Step(o, ok); var v := Next(w, e); var l := PickupsCanceled(kind, false);
    && o in v.ops
    && Get(v.counters, l) + OwesCancel(kind)(v.ops[o]) + (if LosesOne(w, e, kind) then 1 else 0)
       == Get(w.counters, l) + OwesCancel(kind)(w.ops[o]) + (if CancelsOne(w, e, kind) then 1 else 0)
  }

  lemma UpdateBalances(w: World, o: OpId, ok: bool, kind: WasteType)
    requires o in w.ops && w.ops[o].CancelUpdating?
    ensures StepBalances(w, o, ok, kind)
  {
    SingleRow(w.db, w.ops[o].id, {Pending, Scheduled});
  }

  lemma ReadBalances(w: World, o: OpId, ok: bool, kind: WasteType)
    requires OpsOk(w) && o in w.ops && w.ops[o].CancelReading?
    ensures StepBalances(w, o, ok, kind)
  {
    assert OpOk(w.db, w.nextId, w.ops[o]);
    hide OpsOk;
  }

  lemma ManualCount(w: World, o: OpId, ok: bool, kind: WasteType)
    requires o in w.ops
    ensures var l := PickupsCanceled(kind, false);
      Get(Next(w, Step(o, ok)).counters, l)
      == Get(w.counters, l) + if w.ops[o].CancelCounting? && w.ops[o].row.kind == kind then 1 else 0
  {
    hide Apply, Resume;
  }

  lemma NoneCanceling(w: World, o: OpId, ok: bool)
    requires o in w.ops && !w.ops[o].CancelUpdating? && !w.ops[o].CancelReading?
    ensures var v := Next(w, Step(o, ok)); o in v.ops && !v.ops[o].CancelReading? && !v.ops[o].CancelCounting?
  {
  }

  lemma OtherBalances(w: World, o: OpId, ok: bool, kind: WasteType)
    requires o in w.ops && !w.ops[o].CancelUpdating? && !w.ops[o].CancelReading?
    ensures StepBalances(w, o, ok, kind)
  {
    hide Next, Get;
    ManualCount(w, o, ok, kind);
    NoneCanceling(w, o, ok);
  }

  lemma ManualStep(w: World, o: OpId, ok: bool, kind: WasteType)
    requires OpsOk(w) && o in w.ops
    ensures StepBalances(w, o, ok, kind)
  {
    hide StepBalances, OpsOk;
    if w.ops[o].CancelUpdating? {
      UpdateBalances(w, o, ok, kind);
    } else if w.ops[o].CancelReading? {
      ReadBalances(w, o, ok, kind);
    } else {
      OtherBalances(w, o, ok, kind);
    }
  }

  /** One event in the account of Cancel. */
  lemma ManualMoves(w: World, e: Event, kind: WasteType)
    requires OpsOk(w)
    ensures var v := Next(w, e); var l := PickupsCanceled(kind, false); var owes := OwesCancel(kind);
      Get(v.counters, l) + InFlight(v.ops, owes) + (if LosesOne(w, e, kind) then 1 else 0)
      == Get(w.counters, l) + InFlight(w.ops, owes) + (if CancelsOne(w, e, kind) then 1 else 0)
  {
    OpsAfter(w, e);
    var owes := OwesCancel(kind);
    if e.Step? && e.op in w.ops {
      ManualStep(w, e.op, e.ok, kind);
      OneMoves(w.ops, e.op, Next(w, e).ops[e.op], owes);
      hide Next, InFlight, OpsOk;
    } else if e.Start? && e.op !in w.ops {
      OneMoves(w.ops, e.op, Begin(w, e.request), owes);
    }
  }

  /** Over every run and for every type, the manual counter, plus the cancels still to be
      counted, plus those whose second read failed or found nothing, is the number of pickups
      that Cancel canceled. */
  lemma {:induction false} ManualCancelsAreCounted(now: Time, es: seq<Event>, kind: WasteType)
    ensures var v := Run(Init(now), es);
      Get(v.counters, PickupsCanceled(kind, false)) + InFlight(v.ops, OwesCancel(kind))
      + NeverCounted(Init(now), es, kind)
      == ManualCancels(Init(now), es, kind)
  {
    NothingInFlight(now, OwesCancel(kind));
    if es != [] {
      hide Next, Inv, InFlight, LosesOne, CancelsOne;
      var before := es[..|es| - 1];
      ManualCancelsAreCounted(now, before, kind);
      Reachable(now, before);
      OpsAreOk(Run(Init(now), before));
      ManualMoves(Run(Init(now), before), es[|es| - 1], kind);
    }
  }
  // ---- cycles begun and rows found ----

  predicate BeginsCycle(w: World, e: Event) {
    e.Start? && e.op !in w.ops && e.request.RunCycle?
  }

  /** The pending organic pickups created before `before`. */
  function Overdue(t: Tables, before: Time): set<Id> {
    set i | i in t.pickups && t.pickups[i].kind == Organic && t.pickups[i].status == Pending
            && t.pickups[i].createdAt < before
  }

  /** Rows the event finds for a cycle. */
  function FoundBy(w: World, e: Event): nat {
    if e.Step? && e.ok && e.op in w.ops && w.ops[e.op].CycleFinding? then |Overdue(w.db, w.ops[e.op].before)| else 0
  }

  /** Cycles begun, and rows found by their reads, along a run. */
  ghost function CyclesBegun(w: World, es: seq<Event>): nat {
    if es == [] then 0
    else
      CyclesBegun(w, es[..|es| - 1]) + if BeginsCycle(Run(w, es[..|es| - 1]), es[|es| - 1]) then 1 else 0
  }

  ghost function RowsFound(w: World, es: seq<Event>): nat {
    if es == [] then 0
    else RowsFound(w, es[..|es| - 1]) + FoundBy(Run(w, es[..|es| - 1]), es[|es| - 1])
  }

  lemma StepCounts(w: World, o: OpId, ok: bool)
    requires o in w.ops
    ensures var c := StepOp(w, o, ok).counters;
      && Get(c, WorkerCycles) == Get(w.counters, WorkerCycles)
      && Get(c, ExpiredFound) == Get(w.counters, ExpiredFound)
         + if ok && w.ops[o].CycleFinding? then |Overdue(w.db, w.ops[o].before)| else 0
  {
    if w.ops[o].CycleFinding? {
      assert Overdue(w.db, w.ops[o].before) == ExpiredOrganic(w.db, w.ops[o].before);
    }
  }

  lemma WorkerCounts(w: World, e: Event)
    ensures var v := Next(w, e);
      && Get(v.counters, WorkerCycles) == Get(w.counters, WorkerCycles) + (if BeginsCycle(w, e) then 1 else 0)
      && Get(v.counters, ExpiredFound) == Get(w.counters, ExpiredFound) + FoundBy(w, e)
  {
    if e.Step? && e.op in w.ops {
      hide Overdue, Get;
      StepCounts(w, e.op, e.ok);
    }
  }

  /** Over every run the worker's own counters are exact: one for each cycle begun, whatever
      becomes of it, and one for each row that the read of a cycle found. */
  lemma {:induction false} WorkerCountersAreExact(now: Time, es: seq<Event>)
    ensures var w := Init(now); var c := Run(w, es).counters;
      Get(c, WorkerCycles) == CyclesBegun(w, es) && Get(c, ExpiredFound) == RowsFound(w, es)
  {
    hide Next, BeginsCycle, FoundBy;
    if es != [] {
      WorkerCountersAreExact(now, es[..|es| - 1]);
      WorkerCounts(Run(Init(now), es[..|es| - 1]), es[|es| - 1]);
    }
  }
}

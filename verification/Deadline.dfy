/** BR-04 in time: how long an organic pickup can stay pending while the worker ticks. Cycles
    are ordinary operations here: other events, other cycles included, come between the start,
    the find and the cancel of a cycle, and each takes its time and may fail. */
module Deadline {
  import opened Domain
  import opened Sql
  import opened Integrity
  import opened Machine
  import opened Invariant
  import opened Answers
  import opened Billing
  import opened Cycle

  predicate Waiting(t: Tables, i: Id) {
    i in t.pickups && t.pickups[i].kind == Organic && t.pickups[i].status == Pending
  }

  lemma NewRowsAreNew(t: Tables, now: Time, a: Write, i: Id)
    requires i !in t.pickups && i in Apply(t, now, a).0.pickups
    ensures Apply(t, now, a).0.pickups[i].createdAt == now
  {
  }

  lemma PendingUntouched(t: Tables, n: Id, u: Tables, i: Id)
    requires Evolves(t, n, u) && Keyed(t, n) && i in t.pickups && Waiting(u, i)
    ensures t.pickups[i] == u.pickups[i]
  {
  }

  /** A row that appears is created now, and a pending row was not touched since. */
  lemma WaitingBefore(w: World, e: Event, v: World, i: Id)
    requires Inv(w) && v == Next(w, e) && Waiting(v.db, i)
    ensures if i in w.db.pickups then w.db.pickups[i] == v.db.pickups[i] else v.db.pickups[i].createdAt == w.now
  {
    NextInv(w, e);
    if i in w.db.pickups {
      PendingUntouched(w.db, w.nextId, v.db, i);
    } else {
      NextDb(w, e);
      NewRowsAreNew(w.db, w.now, WriteOf(w, e).value, i);
    }
  }

  lemma ClockRuns(w: World, e: Event)
    ensures w.now <= Next(w, e).now && (!e.Tick? ==> Next(w, e).now == w.now)
  {
  }

  // ---- a cycle with any delay clears what it found ----

  /** Every waiting pickup created before `before` is among `ids`. */
  ghost predicate Caught(w: World, before: Time, ids: set<Id>) {
    before <= w.now && forall i | Waiting(w.db, i) && w.db.pickups[i].createdAt < before :: i in ids
  }

  /** No waiting pickup was created before `before`. */
  ghost predicate Cleared(w: World, before: Time) {
    Caught(w, before, {})
  }

  lemma CaughtNext(w: World, e: Event, before: Time, ids: set<Id>)
    requires Inv(w) && Caught(w, before, ids)
    ensures Caught(Next(w, e), before, ids)
  {
    hide Inv, Next;
    ClockRuns(w, e);
    var v := Next(w, e);
    forall i | Waiting(v.db, i) && v.db.pickups[i].createdAt < before ensures i in ids {
      WaitingBefore(w, e, v, i);
    }
  }

  lemma {:induction false} CaughtRun(w: World, es: seq<Event>, before: Time, ids: set<Id>)
    requires Inv(w) && Caught(w, before, ids)
    ensures Caught(Run(w, es), before, ids)
  {
    if es != [] {
      hide Inv, Next, Caught;
      CaughtRun(w, es[..|es| - 1], before, ids);
      RunInv(w, es[..|es| - 1]);
      CaughtNext(Run(w, es[..|es| - 1]), es[|es| - 1], before, ids);
    }
  }

  lemma FindCatches(w: World, o: OpId)
    requires o in w.ops && w.ops[o].CycleFinding? && w.ops[o].before <= w.now
    ensures Caught(w, w.ops[o].before, ExpiredOrganic(w.db, w.ops[o].before))
    ensures Caught(Next(w, Step(o, true)), w.ops[o].before, ExpiredOrganic(w.db, w.ops[o].before))
  {
    FindDecides(w, o);
    hide Next;
  }

  lemma BulkClears(w: World, o: OpId)
    requires o in w.ops && w.ops[o].CycleCanceling? && Caught(w, w.ops[o].before, w.ops[o].ids)
    ensures Cleared(Next(w, Step(o, true)), w.ops[o].before)
  {
    BulkDecides(w, o);
    ClockRuns(w, Step(o, true));
    hide Next;
  }

  lemma ReturnedRests(w: World, o: OpId)
    requires o in w.ops && w.ops[o].Returned?
    ensures var v := Next(w, Step(o, true)); v.db == w.db && v.now == w.now
  {
  }

  /** Whatever runs between find and cancel: after the cancel no waiting pickup is older than
      the cycle's cutoff time. */
  lemma CycleClearsLate(w: World, o: OpId, es: seq<Event>)
    requires Inv(w) && o in w.ops && w.ops[o].CycleFinding? && w.ops[o].before <= w.now && Silent(es, o)
    ensures Cleared(Next(Run(Next(w, Step(o, true)), es), Step(o, true)), w.ops[o].before)
  {
    hide Inv, Next, Run;
    var before := w.ops[o].before;
    var ids := ExpiredOrganic(w.db, before);
    var w1 := Next(w, Step(o, true));
    FindCatches(w, o);
    FindDecides(w, o);
    NextInv(w, Step(o, true));
    CaughtRun(w1, es, before, ids);
    OthersKeep(w1, es, o);
    if ids == {} {
      ReturnedRests(Run(w1, es), o);
    } else {
      BulkClears(Run(w1, es), o);
    }
  }

  /** One successful cycle, with any delay before its find and before its cancel, bounds the age
      of waiting pickups from then on: counted from its start, whatever runs before and after. */
  lemma CycleMeetsDeadline(
    w: World, o: OpId, cutoff: Time, es1: seq<Event>, es2: seq<Event>, es3: seq<Event>, within: Time, i: Id)
    requires Inv(w) && o !in w.ops && 0 <= cutoff && Silent(es1, o) && Silent(es2, o)
    requires var v := AfterCycle(w, o, cutoff, es1, es2, es3); v.now < w.now + within && Waiting(v.db, i)
    ensures var v := AfterCycle(w, o, cutoff, es1, es2, es3); v.now < v.db.pickups[i].createdAt + cutoff + within
  {
    CycleBegins(w, o, cutoff);
    NextInv(w, Start(o, RunCycle(cutoff)));
    hide Inv, Next, Run;
    var w1 := Next(w, Start(o, RunCycle(cutoff)));
    var w2 := Run(w1, es1);
    OthersKeep(w1, es1, o);
    RunInv(w1, es1);
    RunClock(w1, es1);
    CycleClearsLate(w2, o, es2);
    NextInv(w2, Step(o, true));
    RunInv(Next(w2, Step(o, true)), es2);
    var w3 := Run(Next(w2, Step(o, true)), es2);
    NextInv(w3, Step(o, true));
    CaughtRun(Next(w3, Step(o, true)), es3, w.now - cutoff, {});
  }

  /** A cycle that starts, waits, finds, waits and cancels, and what runs after it. */
  function AfterCycle(w: World, o: OpId, cutoff: Time, es1: seq<Event>, es2: seq<Event>, es3: seq<Event>): World {
    var found := Next(Run(Next(w, Start(o, RunCycle(cutoff))), es1), Step(o, true));
    Run(Next(Run(found, es2), Step(o, true)), es3)
  }

  lemma CycleBegins(w: World, o: OpId, cutoff: Time)
    requires o !in w.ops
    ensures var v := Next(w, Start(o, RunCycle(cutoff)));
      v.now == w.now && v.db == w.db && v.ops == w.ops[o := CycleFinding(w.now - cutoff)]
  {
  }

  lemma {:induction false} RunClock(w: World, es: seq<Event>)
    ensures w.now <= Run(w, es).now
  {
    if es != [] {
      RunClock(w, es[..|es| - 1]);
      ClockRuns(Run(w, es[..|es| - 1]), es[|es| - 1]);
      hide Next;
    }
  }

  // ---- any number of cycles along a run ----

  /** Every cycle in flight looks for the past, and has caught what it has to cancel. */
  ghost predicate Catching(w: World) {
    forall o | o in w.ops ::
      match w.ops[o]
      case CycleFinding(before) => before <= w.now
      case CycleCanceling(before, ids) => Caught(w, before, ids)
      case _ => true
  }

  /** Every cycle that starts has this cutoff. */
  predicate SameCutoff(es: seq<Event>, cutoff: Time) {
    forall k | 0 <= k < |es| && es[k].Start? && es[k].request.RunCycle? :: es[k].request.cutoff == cutoff
  }

  lemma CatchingStep(w: World, o: OpId, ok: bool)
    requires Inv(w) && Catching(w) && o in w.ops
    ensures var v := Next(w, Step(o, ok));
      o in v.ops && match v.ops[o]
                    case CycleFinding(before) => before <= v.now
                    case CycleCanceling(before, ids) => Caught(v, before, ids)
                    case _ => true
  {
    if w.ops[o].CycleFinding? && ok {
      FindCatches(w, o);
      FindDecides(w, o);
      ClockRuns(w, Step(o, true));
      hide Next;
    } else {
      NotFound(w, o, ok);
      ClockRuns(w, Step(o, ok));
      hide Next;
    }
  }

  lemma NotFound(w: World, o: OpId, ok: bool)
    requires o in w.ops && !(w.ops[o].CycleFinding? && ok)
    ensures var v := Next(w, Step(o, ok)); o in v.ops && !v.ops[o].CycleFinding? && !v.ops[o].CycleCanceling?
  {
  }

  lemma CatchingNext(w: World, e: Event)
    requires Inv(w) && Catching(w) && (e.Start? && e.request.RunCycle? ==> 0 <= e.request.cutoff)
    ensures Catching(Next(w, e))
  {
    hide Next, Inv, Caught;
    var v := Next(w, e);
    ClockRuns(w, e);
    OpsAfter(w, e);
    forall o | o in v.ops
      ensures match v.ops[o]
              case CycleFinding(before) => before <= v.now
              case CycleCanceling(before, ids) => Caught(v, before, ids)
              case _ => true
    {
      if e.Step? && e.op == o && o in w.ops {
        CatchingStep(w, o, e.ok);
      } else if o in w.ops {
        assert v.ops[o] == w.ops[o];
        if v.ops[o].CycleCanceling? {
          CaughtNext(w, e, v.ops[o].before, v.ops[o].ids);
        }
      }
    }
  }

  lemma {:induction false} CatchingRun(w: World, es: seq<Event>, cutoff: Time)
    requires Inv(w) && Catching(w) && 0 <= cutoff && SameCutoff(es, cutoff)
    ensures Catching(Run(w, es))
  {
    if es != [] {
      hide Inv, Next, Catching;
      var before := es[..|es| - 1];
      CatchingRun(w, before, cutoff);
      RunInv(w, before);
      CatchingNext(Run(w, before), es[|es| - 1]);
    }
  }

  /** The cutoff time of a cycle that has done its work with this event. */
  function SweptBy(w: World, e: Event): Option<Time> {
    if e.Step? && e.ok && e.op in w.ops then
      match w.ops[e.op]
      case CycleFinding(before) => if ExpiredOrganic(w.db, before) == {} then Some(before) else None
      case CycleCanceling(before, _) => Some(before)
      case _ => None
    else None
  }

  function Later(a: Option<Time>, b: Option<Time>): Option<Time> {
    if a.None? then b else if b.None? then a else Some(Max(a.value, b.value))
  }

  /** The latest cutoff time among the cycles that have done their work along a run. */
  ghost function Swept(w: World, es: seq<Event>): Option<Time> {
    if es == [] then None
    else Later(Swept(w, es[..|es| - 1]), SweptBy(Run(w, es[..|es| - 1]), es[|es| - 1]))
  }

  lemma SweepClears(w: World, e: Event)
    requires Inv(w) && Catching(w) && SweptBy(w, e).Some?
    ensures Cleared(Next(w, e), SweptBy(w, e).value)
  {
    if w.ops[e.op].CycleFinding? {
      FindCatches(w, e.op);
    } else {
      BulkClears(w, e.op);
    }
    hide Next, Inv;
  }

  /** However many cycles run, overlap, are late or fail: no waiting pickup is older than the
      cutoff time of the latest cycle that has done its work. */
  lemma {:induction false} NoneLeftBehind(w: World, es: seq<Event>, cutoff: Time)
    requires Inv(w) && Catching(w) && 0 <= cutoff && SameCutoff(es, cutoff)
    ensures Swept(w, es).Some? ==> Cleared(Run(w, es), Swept(w, es).value)
  {
    if es != [] {
      hide Inv, Next, Catching, Caught, SweptBy;
      var before, e := es[..|es| - 1], es[|es| - 1];
      var v := Run(w, before);
      NoneLeftBehind(w, before, cutoff);
      RunInv(w, before);
      CatchingRun(w, before, cutoff);
      if Swept(w, before).Some? {
        CaughtNext(v, e, Swept(w, before).value, {});
      }
      if SweptBy(v, e).Some? {
        SweepClears(v, e);
      }
    }
  }

  // ---- the deadline ----

  /** When the latest cycle that has done its work began, or else the beginning of the run. */
  ghost function LastStart(w: World, es: seq<Event>, cutoff: Time): Time {
    if Swept(w, es).None? then w.now else Swept(w, es).value + cutoff
  }

  /** At the latest cycle that has done its work no waiting pickup had passed the cutoff when
      that cycle began, unless it had passed it before the worker was started and no cycle has
      done its work yet. */
  lemma YoungAtLastStart(w: World, es: seq<Event>, cutoff: Time, i: Id)
    requires Inv(w) && Catching(w) && 0 <= cutoff && SameCutoff(es, cutoff)
    requires var v := Run(w, es);
      Waiting(v.db, i) && (Swept(w, es).Some? || w.now <= v.db.pickups[i].createdAt + cutoff)
    ensures LastStart(w, es, cutoff) <= Run(w, es).db.pickups[i].createdAt + cutoff
  {
    NoneLeftBehind(w, es, cutoff);
    hide Inv, Next, Catching, Run, Swept;
  }

  /** BR-04 with latency: while less than `interval + latency` has passed since the start of the
      latest cycle that has done its work, no organic pickup is pending at createdAt + cutoff +
      interval + latency or later. */
  lemma DeadlineWithLatency(w: World, es: seq<Event>, cutoff: Time, interval: Time, latency: Time, i: Id)
    requires Inv(w) && Catching(w) && 0 <= cutoff && SameCutoff(es, cutoff)
    requires var v := Run(w, es);
      && v.now < LastStart(w, es, cutoff) + interval + latency
      && Waiting(v.db, i) && (Swept(w, es).Some? || w.now <= v.db.pickups[i].createdAt + cutoff)
    ensures var v := Run(w, es); v.now < v.db.pickups[i].createdAt + cutoff + interval + latency
  {
    hide Inv, Catching, Run, LastStart, Swept;
    YoungAtLastStart(w, es, cutoff, i);
  }

  /** The case without latency. */
  lemma DeadlineHolds(w: World, es: seq<Event>, cutoff: Time, interval: Time, i: Id)
    requires Inv(w) && Catching(w) && 0 <= cutoff && SameCutoff(es, cutoff)
    requires var v := Run(w, es);
      && v.now < LastStart(w, es, cutoff) + interval
      && Waiting(v.db, i) && (Swept(w, es).Some? || w.now <= v.db.pickups[i].createdAt + cutoff)
    ensures var v := Run(w, es); v.now < v.db.pickups[i].createdAt + cutoff + interval
  {
    hide Inv, Catching, Run, LastStart, Swept;
    DeadlineWithLatency(w, es, cutoff, interval, 0, i);
  }

  /** The same up to and including the moment the next tick is due. */
  lemma DeadlineHoldsAtTick(w: World, es: seq<Event>, cutoff: Time, interval: Time, i: Id)
    requires Inv(w) && Catching(w) && 0 <= cutoff && SameCutoff(es, cutoff)
    requires var v := Run(w, es);
      && v.now <= LastStart(w, es, cutoff) + interval
      && Waiting(v.db, i) && (Swept(w, es).Some? || w.now <= v.db.pickups[i].createdAt + cutoff)
    ensures var v := Run(w, es); v.now <= v.db.pickups[i].createdAt + cutoff + interval
  {
    hide Inv, Catching, Run, LastStart, Swept;
    YoungAtLastStart(w, es, cutoff, i);
  }

  // ---- a worker on schedule ----

  /** When cycles started along a run. */
  ghost function Starts(w: World, es: seq<Event>): seq<Time> {
    if es == [] then []
    else
      var v := Run(w, es[..|es| - 1]); var e := es[|es| - 1];
      Starts(w, es[..|es| - 1]) + if e.Start? && e.request.RunCycle? && e.op !in v.ops then [v.now] else []
  }

  /** The last start, or the beginning. */
  function LastOf(begin: Time, starts: seq<Time>): Time {
    if starts == [] then begin else starts[|starts| - 1]
  }

  predicate Spaced(begin: Time, starts: seq<Time>, interval: Time) {
    starts != [] ==>
      var before := starts[..|starts| - 1];
      Spaced(begin, before, interval) && starts[|starts| - 1] <= LastOf(begin, before) + interval
  }

  /** The worker runs on schedule: cycles start at most `interval` apart, up to now, and a cycle
      that started at least `latency` ago has done its work, or a later one has. */
  ghost predicate OnSchedule(w: World, es: seq<Event>, cutoff: Time, interval: Time, latency: Time) {
    var starts, now := Starts(w, es), Run(w, es).now;
    && Spaced(w.now, starts, interval) && now <= LastOf(w.now, starts) + interval
    && forall k | 0 <= k < |starts| && starts[k] + latency <= now ::
         Swept(w, es).Some? && starts[k] <= Swept(w, es).value + cutoff
  }

  /** Among starts at most `interval` apart, the last one that is `latency` old is no older than
      both together. */
  lemma {:induction false} NotLongAgo(
    begin: Time, starts: seq<Time>, interval: Time, latency: Time, now: Time, done: Option<Time>)
    requires Spaced(begin, starts, interval) && now < LastOf(begin, starts) + interval + latency
    requires forall k | 0 <= k < |starts| && starts[k] + latency <= now :: done.Some? && starts[k] <= done.value
    ensures now < begin + interval + latency || (done.Some? && now < done.value + interval + latency)
  {
    if starts != [] && now < starts[|starts| - 1] + latency {
      NotLongAgo(begin, starts[..|starts| - 1], interval, latency, now, done);
    }
  }

  /** BR-04: a worker that runs on schedule from createdAt + cutoff at the latest leaves no
      organic pickup pending at createdAt + cutoff + interval + latency or later. */
  lemma DeadlineOnSchedule(w: World, es: seq<Event>, cutoff: Time, interval: Time, latency: Time, i: Id)
    requires Inv(w) && Catching(w) && 0 <= cutoff && SameCutoff(es, cutoff)
    requires 0 < latency && OnSchedule(w, es, cutoff, interval, latency)
    requires var v := Run(w, es); Waiting(v.db, i) && w.now <= v.db.pickups[i].createdAt + cutoff
    ensures var v := Run(w, es); v.now < v.db.pickups[i].createdAt + cutoff + interval + latency
  {
    hide Inv, Catching, Run, Swept, Starts;
    var swept := Swept(w, es);
    var done := if swept.Some? then Some(swept.value + cutoff) else None;
    NotLongAgo(w.now, Starts(w, es), interval, latency, Run(w, es).now, done);
    YoungAtLastStart(w, es, cutoff, i);
  }

  /** The worker's part of every theorem here holds from the empty service on. */
  lemma CatchingReachable(now: Time, es: seq<Event>, cutoff: Time)
    requires 0 <= cutoff && SameCutoff(es, cutoff)
    ensures Inv(Run(Init(now), es)) && Catching(Run(Init(now), es))
  {
    Reachable(now, []);
    Reachable(now, es);
    CatchingRun(Init(now), es, cutoff);
  }
}

/** BR-04: the two steps of a worker cycle (find, then bulk cancel) and their counters. */
module Cycle {
  import opened Domain
  import opened Sql
  import opened Machine
  import opened Invariant
  import opened Answers
  import opened Gate
  import opened Lifecycle

  /** Rows whose content differs between two table states. */
  ghost function Written(t: Tables, u: Tables): set<Id> {
    set i | i in t.pickups && (i !in u.pickups || t.pickups[i] != u.pickups[i])
  }

  lemma FindDecides(w: World, o: OpId)
    requires o in w.ops && w.ops[o].CycleFinding?
    ensures var before := w.ops[o].before; var ids := ExpiredOrganic(w.db, before); var v := Next(w, Step(o, true));
      && v.db == w.db && v.nextId == w.nextId + 1 && v.now == w.now
      && v.ops == w.ops[o := if ids == {} then Returned(CycleSucceeded(0)) else CycleCanceling(before, ids)]
  {
  }

  /** The bulk cancel writes exactly the listed rows that are still pending or scheduled, and
      the cycle records exactly those. */
  lemma BulkDecides(w: World, o: OpId)
    requires o in w.ops && w.ops[o].CycleCanceling?
    ensures var ids := w.ops[o].ids; var v := Next(w, Step(o, true));
      && v.ops == w.ops[o := CycleCounting(ids, Written(w.db, v.db))]
      && (forall i :: i in Written(w.db, v.db) <==>
            i in ids && i in w.db.pickups && w.db.pickups[i].status in {Pending, Scheduled})
      && (forall i | i in Written(w.db, v.db) ::
            v.db.pickups[i] == w.db.pickups[i].(status := Canceled, updatedAt := w.now))
      && v.db.pickups.Keys == w.db.pickups.Keys && v.db.payments == w.db.payments && v.db.households == w.db.households
  {
    var ids := w.ops[o].ids;
    var v := Next(w, Step(o, true));
    var hit := Matching(w.db, ids, {Pending, Scheduled});
    StepParts(w, o, true);
    ActDb(w, CallOf(w.ops[o], w.nextId), true);
    assert v.db == SetPickups(w.db, hit, Canceled, None, w.now);
    assert forall i | i in hit :: v.db.pickups[i].status == Canceled != w.db.pickups[i].status;
    assert Written(w.db, v.db) == hit;
  }

  /** Whatever runs between find and cancel: all a cycle cancels was organic, older than its
      cutoff and pending when found; a listed pickup that is still pending or scheduled is
      canceled; nothing else is written, completed pickups least of all. */
  lemma CycleIsSound(w: World, o: OpId, es: seq<Event>)
    requires Inv(w) && o in w.ops && w.ops[o].CycleFinding? && Silent(es, o)
    requires ExpiredOrganic(w.db, w.ops[o].before) != {}
    ensures var before := w.ops[o].before;
      var v := Run(Next(w, Step(o, true)), es);
      var u := Next(v, Step(o, true));
      && (forall i | i in Written(v.db, u.db) ::
            && i in w.db.pickups && w.db.pickups[i].kind == Organic && w.db.pickups[i].status == Pending
            && w.db.pickups[i].createdAt < before
            && i in v.db.pickups && v.db.pickups[i].status != Completed
            && i in u.db.pickups && u.db.pickups[i].status == Canceled)
      && (forall i | i in ExpiredOrganic(w.db, before) && i in v.db.pickups
                     && v.db.pickups[i].status in {Pending, Scheduled} ::
            i in Written(v.db, u.db))
  {
    FindDecides(w, o);
    var w1 := Next(w, Step(o, true));
    NextInv(w, Step(o, true));
    OthersKeep(w1, es, o);
    BulkDecides(Run(w1, es), o);
  }

  /** With nothing in between, a cycle cancels exactly the expired organic pickups, and the
      number it adds to its counter is exact. */
  lemma QuietCycleIsExact(w: World, o: OpId)
    requires o in w.ops && w.ops[o].CycleFinding? && ExpiredOrganic(w.db, w.ops[o].before) != {}
    ensures var ids := ExpiredOrganic(w.db, w.ops[o].before);
      var v := Next(Next(w, Step(o, true)), Step(o, true));
      Written(w.db, v.db) == ids && v.ops[o] == CycleCounting(ids, ids)
  {
    FindDecides(w, o);
    BulkDecides(Next(w, Step(o, true)), o);
  }

  /** From a pending start, the status is told by the entries counted on the way. */
  lemma {:induction false} StatusByEntries(w: World, es: seq<Event>, i: Id)
    requires Inv(w) && i in w.db.pickups && w.db.pickups[i].status == Pending
    requires i in Run(w, es).db.pickups
    ensures var p := Run(w, es).db.pickups[i];
      var scheduled, finished := Entries(w, es, i, 1), Entries(w, es, i, 2);
      && (p.status == Pending <==> scheduled == 0 && finished == 0)
      && (p.status == Scheduled <==> scheduled == 1 && finished == 0)
  {
    if es != [] {
      var before := es[..|es| - 1];
      hide Inv, Next;
      StillThere(w, before, es[|es| - 1], i);
      StatusByEntries(w, before, i);
      EnteredOnce(w, es, i, 1);
    }
  }

  /** A row that is there after an event, and was there long before, was there just before. */
  lemma StillThere(w: World, es: seq<Event>, e: Event, i: Id)
    requires Inv(w) && i in w.db.pickups && i in Next(Run(w, es), e).db.pickups
    ensures var v, u := Run(w, es), Next(Run(w, es), e);
      i in v.db.pickups && PickupEvolves(v.db.pickups[i], u.db.pickups[i])
  {
    RunInv(w, es);
    NextInv(Run(w, es), e);
    hide Run, Next;
  }

  /** What a cycle reports is exactly what it cancels if and only if every pickup it found still
      exists and was not completed or canceled between find and cancel. */
  lemma CycleReportsExactlyIff(w: World, o: OpId, es: seq<Event>)
    requires Inv(w) && o in w.ops && w.ops[o].CycleFinding? && Silent(es, o)
    requires ExpiredOrganic(w.db, w.ops[o].before) != {}
    ensures var ids := ExpiredOrganic(w.db, w.ops[o].before);
      var w1 := Next(w, Step(o, true)); var v := Run(w1, es); var u := Next(v, Step(o, true));
      && u.ops == v.ops[o := CycleCounting(ids, Written(v.db, u.db))]
      && (Written(v.db, u.db) == ids <==> forall i | i in ids :: i in v.db.pickups && Entries(w1, es, i, 2) == 0)
  {
    hide Inv, Next, Run, Entries;
    var ids := ExpiredOrganic(w.db, w.ops[o].before);
    var w1 := Next(w, Step(o, true));
    var v := Run(w1, es);
    FindDecides(w, o);
    NextInv(w, Step(o, true));
    OthersKeep(w1, es, o);
    BulkDecides(v, o);
    var u := Next(v, Step(o, true));
    forall i | i in ids && i in v.db.pickups ensures i in Written(v.db, u.db) <==> Entries(w1, es, i, 2) == 0 {
      StatusByEntries(w1, es, i);
      AtMostTwoChanges(w1, es, i);
    }
    hide Written;
    if forall i | i in ids :: i in v.db.pickups && Entries(w1, es, i, 2) == 0 {
      assert ids <= Written(v.db, u.db) <= ids;
    }
  }

  /** BR-04 speaks of pickups with no scheduled date. A whole cycle keeps to it exactly if no
      pickup it found, and that still exists, was scheduled between find and cancel and then
      left scheduled. */
  lemma CancelsOnlyPendingIff(w: World, o: OpId, es: seq<Event>)
    requires Inv(w) && o in w.ops && w.ops[o].CycleFinding? && Silent(es, o)
    requires ExpiredOrganic(w.db, w.ops[o].before) != {}
    ensures var ids := ExpiredOrganic(w.db, w.ops[o].before);
      var w1 := Next(w, Step(o, true)); var v := Run(w1, es); var u := Next(v, Step(o, true));
      (forall i | i in Written(v.db, u.db) :: v.db.pickups[i].status == Pending)
      <==> (forall i | i in ids && i in v.db.pickups :: !(Entries(w1, es, i, 1) == 1 && Entries(w1, es, i, 2) == 0))
  {
    hide Inv, Next, Run, Entries;
    var ids := ExpiredOrganic(w.db, w.ops[o].before);
    var w1 := Next(w, Step(o, true));
    var v := Run(w1, es);
    FindDecides(w, o);
    NextInv(w, Step(o, true));
    OthersKeep(w1, es, o);
    BulkDecides(v, o);
    forall i | i in ids && i in v.db.pickups
      ensures v.db.pickups[i].status == Scheduled <==> Entries(w1, es, i, 1) == 1 && Entries(w1, es, i, 2) == 0
    {
      StatusByEntries(w1, es, i);
    }
    var u := Next(v, Step(o, true));
    forall i | i in ids && i in v.db.pickups && v.db.pickups[i].status == Scheduled ensures i in Written(v.db, u.db) {
    }
  }

  // ---- a scheduled pickup can be canceled ----

  /** An organic pickup is created, grows older than the cutoff, and is found by a cycle. */
  function FoundByCycle(): seq<Event> {
    [AddHousehold("owner", "address")]
    + [Start(1, CreatePickup(0, Organic, false)), Step(1, true), Step(1, true)]
    + [Tick(10), Start(2, RunCycle(5)), Step(2, true)]
  }

  /** A caller schedules it. */
  function ScheduledMeanwhile(date: Time): seq<Event> {
    [Start(3, Schedule(2, date)), Step(3, true)] + [Step(3, true), Step(3, true)]
  }

  lemma CycleStarts(w: World, o: OpId)
    requires o !in w.ops
    ensures var v := Next(Next(w, Tick(10)), Start(o, RunCycle(5)));
      && v.db == w.db && v.now == w.now + 10 && v.nextId == w.nextId && v.ops == w.ops[o := CycleFinding(w.now + 5)]
  {
  }

  lemma FindThrough(w: World, o: OpId)
    requires o !in w.ops && ExpiredOrganic(w.db, w.now + 5) != {}
    ensures var v := Run(w, [Tick(10), Start(o, RunCycle(5)), Step(o, true)]);
      && v.db == w.db && v.now == w.now + 10 && v.nextId == w.nextId + 1
      && v.ops == w.ops[o := CycleCanceling(w.now + 5, ExpiredOrganic(w.db, w.now + 5))]
  {
    hide Next, Run;
    RunShort(w, Tick(10), Start(o, RunCycle(5)), Step(o, true));
    CycleStarts(w, o);
    FindDecides(Next(Next(w, Tick(10)), Start(o, RunCycle(5))), o);
  }

  lemma ScheduleChecks(w: World, o: OpId, i: Id, date: Time)
    requires o !in w.ops && i < w.nextId && i in w.db.pickups
    requires w.db.pickups[i].status == Pending && w.db.pickups[i].kind != Electronic
    ensures var v := Run(w, [Start(o, Schedule(i, date)), Step(o, true)]);
      && v.db == w.db && v.now == w.now && v.ops == w.ops[o := ScheduleChecking(i, date, w.db.pickups[i])]
  {
    RunShort(w, Start(o, Schedule(i, date)), Step(o, true), Tick(0));
    var w1 := Next(w, Start(o, Schedule(i, date)));
    assert w1.db == w.db && w1.now == w.now && w1.ops == w.ops[o := ScheduleReading(i, date)];
    StepParts(w1, o, true);
    ScheduleReads(w1, o);
    hide StepOp, Run;
  }

  lemma ScheduleReads(w: World, o: OpId)
    requires o in w.ops && w.ops[o].ScheduleReading?
    ensures var op := w.ops[o]; var v := Next(w, Step(o, true));
      && v.db == w.db && v.now == w.now
      && v.ops == w.ops[o := AfterScheduleRead(op.id, op.date, FindPickup(w.db, op.id))]
  {
  }

  lemma ScheduleWrites(w: World, o: OpId)
    requires o in w.ops && w.ops[o].ScheduleChecking? && w.now <= w.ops[o].date
    requires var i := w.ops[o].id; i in w.db.pickups && w.db.pickups[i].status == Pending
    ensures var i := w.ops[o].id; var v := Run(w, [Step(o, true), Step(o, true)]);
      && i in v.db.pickups && v.db.pickups[i].status == Scheduled && v.now == w.now
      && (forall p | p in w.ops && p != o :: p in v.ops && v.ops[p] == w.ops[p])
  {
    var i := w.ops[o].id;
    RunShort(w, Step(o, true), Step(o, true), Tick(0));
    var w1 := Next(w, Step(o, true));
    assert w1.db == w.db && w1.ops[o] == ScheduleUpdating(i, w.ops[o].date, w.ops[o].snap);
    StepParts(w1, o, true);
    ActDb(w1, CallOf(w1.ops[o], w1.nextId), true);
    assert i in Matching(w1.db, {i}, {Pending});
  }

  lemma CycleFindsIt(now: Time)
    ensures var w := Run(Init(now), FoundByCycle());
      && w.db.pickups == map[2 := NewPickup(2, 0, Organic, false, now)] && w.nextId == 4 && w.now == now + 10
      && w.ops.Keys == {1, 2} && w.ops[2] == CycleCanceling(now + 5, {2})
  {
    hide Next, Run;
    var w0, add := Init(now), [AddHousehold("owner", "address")];
    OneHousehold(now);
    var w1 := Run(w0, add);
    var create := [Start(1, CreatePickup(0, Organic, false)), Step(1, true), Step(1, true)];
    CreateThrough(w1, 1, 0, Organic);
    var w2 := Run(w1, create);
    assert ExpiredOrganic(w2.db, now + 5) == {2};
    FindThrough(w2, 2);
    RunConcat(w0, add, create);
    RunConcat(w0, add + create, [Tick(10), Start(2, RunCycle(5)), Step(2, true)]);
  }

  /** The worker can cancel a pickup that has just been scheduled: in this run the schedule
      falls between the cycle's find and its bulk cancel. */
  lemma ScheduledCanBeCanceled(now: Time, date: Time)
    requires now + 10 <= date
    ensures var v := Run(Init(now), FoundByCycle() + ScheduledMeanwhile(date)); var u := Next(v, Step(2, true));
      && 2 in v.db.pickups && v.db.pickups[2].status == Scheduled
      && 2 in u.db.pickups && u.db.pickups[2].status == Canceled
  {
    CycleFindsIt(now);
    var w := Run(Init(now), FoundByCycle());
    RunConcat(Init(now), FoundByCycle(), ScheduledMeanwhile(date));
    ScheduleChecks(w, 3, 2, date);
    var w1 := Run(w, [Start(3, Schedule(2, date)), Step(3, true)]);
    ScheduleWrites(w1, 3);
    RunConcat(w, [Start(3, Schedule(2, date)), Step(3, true)], [Step(3, true), Step(3, true)]);
    var v := Run(w1, [Step(3, true), Step(3, true)]);
    BulkDecides(v, 2);
    assert 2 in Written(v.db, Next(v, Step(2, true)).db);
  }
}

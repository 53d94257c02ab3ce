/** BR-01, "a household with a pending payment cannot create a pickup", as the code has it:
    a check and an insert that are two statements. */
module Gate {
  import opened Domain
  import opened Sql
  import opened Machine
  import opened Invariant
  import opened Answers
  import opened Billing

  /** The check refuses exactly when a payment is pending at that moment. */
  lemma CheckDecides(w: World, o: OpId)
    requires o in w.ops && w.ops[o].CreateChecking?
    ensures var op := w.ops[o]; var v := Next(w, Step(o, true));
      && v.db == w.db && v.nextId == w.nextId + 1 && v.now == w.now
      && v.ops == w.ops[o := if HasPendingPayment(w.db, op.household) then Returned(Refused(Conflict))
                             else CreateInserting(op.household, op.kind, op.safetyCheck, w.db.spent)]
  {
  }

  lemma InsertDecides(w: World, o: OpId)
    requires o in w.ops && w.ops[o].CreateInserting?
    ensures var op := w.ops[o]; var v := Next(w, Step(o, true));
      var p := Pickup(w.nextId, op.household, op.kind, Pending, None, op.safetyCheck, w.now, w.now);
      && v.nextId == w.nextId + 1 && v.now == w.now
      && (if op.household in w.db.households then
            v.db == w.db.(pickups := w.db.pickups[w.nextId := p]) && v.ops == w.ops[o := CreateCounting(p)]
          else v.db == w.db && v.ops == w.ops[o := Returned(Refused(NotFound))])
  {
  }

  /** Between check and insert anything may run. If a payment of the household is pending when
      the pickup is inserted, it did not exist at the check: during the call there was a moment
      without a pending payment. */
  lemma BlockersAreNew(w: World, o: OpId, es: seq<Event>)
    requires Inv(w) && o in w.ops && w.ops[o].CreateChecking? && Silent(es, o)
    requires Next(w, Step(o, true)).ops[o].CreateInserting?
    ensures var h := w.ops[o].household; var v := Run(Next(w, Step(o, true)), es);
      && !HasPendingPayment(w.db, h)
      && o in v.ops && v.ops[o].CreateInserting?
      && (forall i | i in v.db.payments && v.db.payments[i].household == h
                     && v.db.payments[i].status == PaymentPending ::
            i !in w.db.payments)
  {
    CheckDecides(w, o);
    NextInv(w, Step(o, true));
    OthersKeep(Next(w, Step(o, true)), es, o);
    RunInv(Next(w, Step(o, true)), es);
    var v := Run(Next(w, Step(o, true)), es);
    assert OpOk(v.db, v.nextId, v.ops[o]);
  }

  /** Exactly when an interleaved Create breaks BR-01: its household still exists, and the last
      payment created for it between check and insert was not confirmed there. Creations and
      confirmations alternate, so an odd number of them says just that. */
  lemma GateHoldsIff(w: World, o: OpId, es: seq<Event>)
    requires Inv(w) && o in w.ops && w.ops[o].CreateChecking? && Silent(es, o)
    requires Next(w, Step(o, true)).ops[o].CreateInserting?
    ensures var op := w.ops[o]; var h := op.household;
      var w1 := Next(w, Step(o, true)); var v := Run(w1, es); var u := Next(v, Step(o, true));
      var id := v.nextId;
      && o in v.ops && id !in v.db.pickups
      && u.db.pickups == (if h in v.db.households then
                            v.db.pickups[id := Pickup(id, h, op.kind, Pending, None, op.safetyCheck, v.now, v.now)]
                          else v.db.pickups)
      && (id in u.db.pickups && HasPendingPayment(v.db, h)
          <==> h in v.db.households && |Moves(w1, es, h)| % 2 == 1)
  {
    var w1 := Next(w, Step(o, true));
    CheckDecides(w, o);
    NextInv(w, Step(o, true));
    BlockersAreNew(w, o, es);
    OthersKeep(w1, es, o);
    MovesAlternate(w1, es, w.ops[o].household);
    RunInv(w1, es);
    IdsAhead(Run(w1, es));
    hide Inv, Next, Run;
    InsertDecides(Run(w1, es), o);
  }

  lemma IdsAhead(w: World)
    requires Inv(w)
    ensures w.nextId !in w.db.pickups
  {
  }

  /** Executed without interruption, Create enforces BR-01 and answers as documented. */
  lemma CreateAlone(w: World, o: OpId)
    requires Inv(w) && o in w.ops && w.ops[o].CreateChecking?
    ensures var op := w.ops[o]; var v := Next(Next(w, Step(o, true)), Step(o, true));
      && o in v.ops
      && (HasPendingPayment(w.db, op.household) ==> v.ops[o] == Returned(Refused(Conflict)) && v.db == w.db)
      && (!HasPendingPayment(w.db, op.household) && op.household !in w.db.households ==>
            v.ops[o] == Returned(Refused(NotFound)) && v.db == w.db)
      && (!HasPendingPayment(w.db, op.household) && op.household in w.db.households ==>
            var p := Pickup(w.nextId + 1, op.household, op.kind, Pending, None, op.safetyCheck, w.now, w.now);
            v.ops[o] == CreateCounting(p) && v.db == w.db.(pickups := w.db.pickups[w.nextId + 1 := p]))
  {
    CheckDecides(w, o);
    var v := Next(w, Step(o, true));
    if v.ops[o].CreateInserting? {
      InsertDecides(v, o);
    } else {
      ReturnedRests(v, o);
    }
  }

  lemma ReturnedRests(w: World, o: OpId)
    requires o in w.ops && w.ops[o].Returned?
    ensures var v := Next(w, Step(o, true)); v.db == w.db && o in v.ops && v.ops[o] == w.ops[o]
  {
  }

  /** Start Create and let it pass the check. */
  lemma CreateStarts(w: World, o: OpId, h: Id)
    requires o !in w.ops && h < w.nextId && !HasPendingPayment(w.db, h)
    ensures var v := Next(Next(w, Start(o, CreatePickup(h, Paper, false))), Step(o, true));
      && v.db == w.db && v.now == w.now && v.nextId == w.nextId + 1
      && v.ops == w.ops[o := CreateInserting(h, Paper, false, w.db.spent)]
  {
  }

  /** Start a direct payment creation and let it go through. */
  lemma PayThrough(w: World, o: OpId, waste: Id)
    requires o !in w.ops && waste < w.nextId && waste in w.db.pickups && w.db.payments == map[]
    requires w.db.pickups[waste].household < w.nextId && w.db.pickups[waste].household in w.db.households
    ensures var h := w.db.pickups[waste].household;
      var v := Next(Next(Next(w, Start(o, CreatePayment(h, waste, 1))), Step(o, true)), Step(o, true));
      var p := NewPayment(w.nextId + 1, h, waste, CanonicalAmount(w.db.pickups[waste].kind), w.now);
      && v.db == w.db.(payments := map[w.nextId + 1 := p], spent := w.db.spent + {w.nextId + 1})
      && v.nextId == w.nextId + 2 && v.now == w.now
      && v.ops == w.ops[o := PayCounting(p)]
  {
  }

  /** One household, one pickup, and a second request for a pickup that has passed its check. */
  function SecondRequestChecked(): seq<Event> {
    [AddHousehold("owner", "address")]
    + [Start(1, CreatePickup(0, Paper, false)), Step(1, true), Step(1, true)]
    + [Start(2, CreatePickup(0, Paper, false)), Step(2, true)]
  }

  /** A payment for the first pickup is created. */
  function PaymentSlipsIn(): seq<Event> {
    [Start(3, CreatePayment(0, 2, 1)), Step(3, true), Step(3, true)]
  }

  lemma RunShort(w: World, a: Event, b: Event, c: Event)
    ensures Run(w, [a]) == Next(w, a)
    ensures Run(w, [a, b]) == Next(Next(w, a), b)
    ensures Run(w, [a, b, c]) == Next(Next(Next(w, a), b), c)
  {
    assert [a][..0] == [] && [a, b][..1] == [a] && [a, b, c][..2] == [a, b];
  }

  lemma OneHousehold(now: Time)
    ensures var w := Run(Init(now), [AddHousehold("owner", "address")]);
      && w.db == Tables(map[0 := Household(0, "owner", "address", now)], map[], map[], {})
      && w.nextId == 1 && w.now == now && w.ops == map[]
  {
  }

  /** Start Create and let it go through. */
  lemma CreateThrough(w: World, o: OpId, h: Id, kind: WasteType)
    requires o !in w.ops && h < w.nextId && h in w.db.households && !HasPendingPayment(w.db, h)
    ensures var v := Run(w, [Start(o, CreatePickup(h, kind, false)), Step(o, true), Step(o, true)]);
      var p := NewPickup(w.nextId + 1, h, kind, false, w.now);
      && v.db == w.db.(pickups := w.db.pickups[w.nextId + 1 := p]) && v.nextId == w.nextId + 2 && v.now == w.now
      && v.ops == w.ops[o := CreateCounting(p)]
  {
    hide Next, Run;
    var r := CreatePickup(h, kind, false);
    RunShort(w, Start(o, r), Step(o, true), Step(o, true));
    CreateBegins(w, o, r);
    var w1 := Next(w, Start(o, r));
    CheckDecides(w1, o);
    InsertDecides(Next(w1, Step(o, true)), o);
  }

  lemma CreateBegins(w: World, o: OpId, r: Request)
    requires o !in w.ops && r.CreatePickup? && r.household < w.nextId
    ensures var v := Next(w, Start(o, r));
      && v.db == w.db && v.now == w.now && v.nextId == w.nextId
      && v.ops == w.ops[o := CreateChecking(r.household, r.kind, r.safetyCheck)]
  {
  }

  lemma SecondRequestWaits(now: Time)
    ensures var w := Run(Init(now), SecondRequestChecked());
      && w.db.pickups == map[2 := NewPickup(2, 0, Paper, false, now)] && w.db.payments == map[]
      && 0 in w.db.households && w.nextId == 4 && w.ops.Keys == {1, 2} && w.now == now
      && w.ops[2] == CreateInserting(0, Paper, false, {})
  {
    hide Next, Run;
    var start := CreatePickup(0, Paper, false);
    var w0, first := Init(now), [AddHousehold("owner", "address")];
    var second := [Start(1, start), Step(1, true), Step(1, true)];
    var third := [Start(2, start), Step(2, true)];
    OneHousehold(now);
    var w1 := Run(w0, first);
    CreateThrough(w1, 1, 0, Paper);
    var w2 := Run(w1, second);
    CreateStarts(w2, 2, 0);
    RunShort(w2, Start(2, start), Step(2, true), Tick(0));
    RunConcat(w0, first, second);
    RunConcat(w0, first + second, third);
  }

  /** BR-01 does not hold under interleaving: in this run the second pickup is inserted while
      its household has a pending payment. */
  lemma GateCanBePassed(now: Time)
    ensures var v := Run(Init(now), SecondRequestChecked() + PaymentSlipsIn()); var u := Next(v, Step(2, true));
      && HasPendingPayment(v.db, 0)
      && 6 !in v.db.pickups && 6 in u.db.pickups && u.db.pickups[6].household == 0
  {
    var w := Run(Init(now), SecondRequestChecked());
    SecondRequestWaits(now);
    RunConcat(Init(now), SecondRequestChecked(), PaymentSlipsIn());
    RunShort(w, Start(3, CreatePayment(0, 2, 1)), Step(3, true), Step(3, true));
    PayThrough(w, 3, 2);
    var v := Run(w, PaymentSlipsIn());
    assert v.db.payments[5].status == PaymentPending;
    InsertDecides(v, 2);
  }
}

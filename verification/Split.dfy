/** The running service with the transaction of Complete taken apart: other events come between
    its begin, its statements and its commit, and wait for its locks and reservations. Every such
    run is a run of the service in which the transaction is a single step. */
module Split {
  import opened Domain
  import opened Sql
  import opened Integrity
  import opened Machine
  import opened Invariant
  import opened Billing
  import T = Transaction

  /** The open transactions, one for each Complete that has begun and not ended. */
  datatype System = System(w: World, txs: map<OpId, T.Tx>)

  /** GiveUp is any internal failure: of the begin, of a statement, of the commit, or of waiting
      for a lock. Every end but a commit is followed by the deferred rollback. */
  datatype Move =
    | Ordinary(event: Event)
    | Update(op: OpId)
    | Insert(op: OpId)
    | Commit(op: OpId)
    | GiveUp(op: OpId)

  function StoreOf(s: System): T.Store {
    T.Store(s.w.db, s.w.now, s.w.nextId, s.txs)
  }

  /** The transaction that an operation past its begin runs. */
  function TxFor(op: Op): T.Tx
    requires op.CompleteWriting?
  {
    T.Tx(op.id, op.snap.household, CanonicalAmount(op.snap.kind), op.payment, op.stamp, T.Begun)
  }

  /** An event that cannot happen as it stands: a step of an operation inside its transaction,
      and a statement that a lock or a reservation keeps waiting. */
  predicate Waits(s: System, e: Event) {
    || (e.Step? && e.op in s.txs)
    || (match WriteOf(s.w, e)
        case Some(Single(st)) => T.Blocked(StoreOf(s), st)
        case _ => false)
  }

  /** The transaction is over: the tables are `t`, the method is at `next`. */
  function End(s: System, o: OpId, t: Tables, next: Op): System {
    System(s.w.(db := t, ops := s.w.ops[o := next], nextId := s.w.nextId + 1), s.txs - {o})
  }

  function SetPhase(s: System, o: OpId, phase: T.Phase): System
    requires o in s.txs
  {
    s.(txs := s.txs[o := s.txs[o].(phase := phase)])
  }

  function OnOrdinary(s: System, e: Event): System {
    if Waits(s, e) then s
    else
      var v := Next(s.w, e);
      System(v, if e.Step? && Begins(s.w, e, e.op) then s.txs[e.op := TxFor(v.ops[e.op])] else s.txs)
  }

  /** Operation `o` begins its transaction with this event. */
  predicate Begins(w: World, e: Event, o: OpId) {
    e.Step? && e.op == o && o in w.ops && w.ops[o].CompleteBeginning?
  }

  function OnUpdate(s: System, o: OpId): System
    requires o in s.txs
  {
    var tx := s.txs[o];
    if !tx.phase.Begun? || T.Locked(StoreOf(s), tx.pickup) then s
    else
      var phase := T.OnUpdate(StoreOf(s), tx);
      if phase.Broken? then End(s, o, s.w.db, Returned(Refused(Conflict))) else SetPhase(s, o, phase)
  }

  function OnInsert(s: System, o: OpId): System
    requires o in s.txs
  {
    var tx := s.txs[o];
    if !tx.phase.Updated? || T.Reserved(StoreOf(s), tx.pickup, tx.household) then s
    else
      match T.OnInsert(StoreOf(s), tx)
      case Broken(Some(Violated(v))) => End(s, o, s.w.db, Returned(Refused(PaymentCreateError(v))))
      case phase => SetPhase(s, o, phase)
  }

  function OnCommit(s: System, o: OpId): System
    requires o in s.txs
  {
    if !s.txs[o].phase.Inserted? || o !in s.w.ops || !s.w.ops[o].CompleteWriting? then s
    else End(s, o, T.OnCommit(s.w.db, s.txs[o]), CompleteCounting(s.w.ops[o].snap.(status := Completed)))
  }

  /** A move that is out of turn, or has to wait, does nothing. */
  function Do(s: System, m: Move): System {
    match m
    case Ordinary(e) => OnOrdinary(s, e)
    case Update(o) => if o in s.txs then OnUpdate(s, o) else s
    case Insert(o) => if o in s.txs then OnInsert(s, o) else s
    case Commit(o) => if o in s.txs then OnCommit(s, o) else s
    case GiveUp(o) => if o in s.txs then End(s, o, s.w.db, Returned(Refused(Internal))) else s
  }

  function DoAll(s: System, ms: seq<Move>): System {
    if ms == [] then s else Do(DoAll(s, ms[..|ms| - 1]), ms[|ms| - 1])
  }

  // ---- what keeps a split run in step with the service ----

  /** Each operation past its begin has its transaction, and no other has one. */
  ghost predicate Matched(w: World, txs: map<OpId, T.Tx>) {
    && (forall o :: o in txs <==> o in w.ops && w.ops[o].CompleteWriting?)
    && (forall o | o in txs :: TxMatches(w.ops[o], txs[o]))
  }

  predicate TxMatches(op: Op, tx: T.Tx)
    requires op.CompleteWriting?
  {
    tx.(phase := T.Begun) == TxFor(op) && (tx.phase.Begun? || tx.phase.Updated? || tx.phase.Inserted?)
  }

  ghost predicate SystemOk(s: System) {
    Inv(s.w) && T.StoreOk(StoreOf(s)) && Matched(s.w, s.txs)
  }

  lemma InTransaction(s: System, o: OpId)
    requires SystemOk(s) && o in s.txs
    ensures Inv(s.w) && o in s.w.ops && s.w.ops[o].CompleteWriting? && TxMatches(s.w.ops[o], s.txs[o])
    ensures T.TxOk(s.w.db, s.w.nextId, s.txs[o])
  {
  }

  /** The event of the service that a move amounts to, if any: a transaction is one step, taken
      when it ends. */
  function EventsOf(s: System, m: Move): seq<Event> {
    match m
    case Ordinary(e) => if Waits(s, e) then [] else [e]
    case _ => if m.op in s.txs && m.op !in Do(s, m).txs then [Step(m.op, !m.GiveUp?)] else []
  }

  function AllEvents(s: System, ms: seq<Move>): seq<Event> {
    if ms == [] then []
    else AllEvents(s, ms[..|ms| - 1]) + EventsOf(DoAll(s, ms[..|ms| - 1]), ms[|ms| - 1])
  }

  /** The one step of Complete's transaction, in full. */
  lemma WholeStep(w: World, o: OpId, ok: bool)
    requires Inv(w) && o in w.ops && w.ops[o].CompleteWriting?
    ensures var op := w.ops[o];
      var (u, r) := Apply(w.db, w.now, CallOf(op, w.nextId).write);
      Next(w, Step(o, ok)) == w.(
        db := if ok then u else w.db, nextId := w.nextId + 1,
        ops := w.ops[o := if !ok then Returned(Refused(Internal))
                          else if r.Violated? then Returned(Refused(PaymentCreateError(r.constraint)))
                          else if r == Rows(0) then Returned(Refused(Conflict))
                          else CompleteCounting(op.snap.(status := Completed))])
  {
    CallJustified(w, w.ops[o]);
    ProofsOfWrite(w.db, w.nextId, w.now, CallOf(w.ops[o], w.nextId).write);
    hide Inv, Apply;
  }

  // ---- a transaction that ends is one step ----

  lemma UpdateEnds(s: System, o: OpId)
    requires o in s.txs && o !in OnUpdate(s, o).txs
    ensures !(s.txs[o].pickup in s.w.db.pickups && s.w.db.pickups[s.txs[o].pickup].status == Scheduled)
    ensures OnUpdate(s, o) == End(s, o, s.w.db, Returned(Refused(Conflict)))
  {
  }

  lemma UpdateReply(w: World, op: Op)
    requires op.CompleteWriting? && !(op.id in w.db.pickups && w.db.pickups[op.id].status == Scheduled)
    ensures Apply(w.db, w.now, CallOf(op, w.nextId).write) == (w.db, Rows(0))
  {
    CompleteTxCases(w.db, w.now, CallOf(op, w.nextId).write);
    hide Apply;
  }

  lemma UpdateRefines(s: System, o: OpId)
    requires SystemOk(s) && o in s.txs && o !in OnUpdate(s, o).txs
    ensures OnUpdate(s, o).w == Next(s.w, Step(o, true))
  {
    hide SystemOk, Inv, Next, Apply, OnUpdate, T.TxOk;
    UpdateEnds(s, o);
    InTransaction(s, o);
    WholeStep(s.w, o, true);
    UpdateReply(s.w, s.w.ops[o]);
  }

  lemma InsertEnds(s: System, o: OpId)
    requires o in s.txs && o !in OnInsert(s, o).txs
    ensures s.txs[o].phase.Updated?
    ensures var bad := PaymentViolation(s.w.db, s.txs[o].household, s.txs[o].pickup, s.txs[o].amount);
      bad.Some? && OnInsert(s, o) == End(s, o, s.w.db, Returned(Refused(PaymentCreateError(bad.value))))
  {
    hide PaymentViolation;
  }

  lemma InsertRefines(s: System, o: OpId)
    requires SystemOk(s) && o in s.txs && o !in OnInsert(s, o).txs
    ensures OnInsert(s, o).w == Next(s.w, Step(o, true))
  {
    hide OnInsert;
    InsertEnds(s, o);
    InTransaction(s, o);
    hide SystemOk, Inv, Next, Apply, PaymentViolation, T.TxOk;
    WholeStep(s.w, o, true);
    InsertReply(s, o);
  }

  lemma InsertReply(s: System, o: OpId)
    requires o in s.txs && s.txs[o].phase.Updated? && T.TxOk(s.w.db, s.w.nextId, s.txs[o])
    requires o in s.w.ops && s.w.ops[o].CompleteWriting? && TxMatches(s.w.ops[o], s.txs[o])
    ensures var bad := PaymentViolation(s.w.db, s.txs[o].household, s.txs[o].pickup, s.txs[o].amount);
      bad.Some? ==> Apply(s.w.db, s.w.now, CallOf(s.w.ops[o], s.w.nextId).write) == (s.w.db, Violated(bad.value))
  {
    CompleteTxCases(s.w.db, s.w.now, CallOf(s.w.ops[o], s.w.nextId).write);
    hide Apply;
  }

  lemma CommitReply(s: System, o: OpId)
    requires o in s.txs && s.txs[o].phase.Inserted? && T.TxOk(s.w.db, s.w.nextId, s.txs[o])
    requires o in s.w.ops && s.w.ops[o].CompleteWriting? && TxMatches(s.w.ops[o], s.txs[o])
    ensures Apply(s.w.db, s.w.now, CallOf(s.w.ops[o], s.w.nextId).write) == (T.OnCommit(s.w.db, s.txs[o]), Rows(1))
  {
    CompleteTxCases(s.w.db, s.w.now, CallOf(s.w.ops[o], s.w.nextId).write);
    hide Apply;
  }

  lemma CommitRefines(s: System, o: OpId)
    requires SystemOk(s) && o in s.txs && o !in OnCommit(s, o).txs
    ensures OnCommit(s, o).w == Next(s.w, Step(o, true))
  {
    hide SystemOk, Inv, Next, Apply, T.TxOk, T.OnCommit, TxMatches;
    InTransaction(s, o);
    WholeStep(s.w, o, true);
    CommitReply(s, o);
  }

  lemma GiveUpRefines(s: System, o: OpId)
    requires SystemOk(s) && o in s.txs
    ensures End(s, o, s.w.db, Returned(Refused(Internal))).w == Next(s.w, Step(o, false))
  {
    InTransaction(s, o);
    hide SystemOk, Inv, Next, Apply;
    WholeStep(s.w, o, false);
  }

  lemma RunNone(w: World, e: Event)
    ensures Run(w, []) == w && Run(w, [e]) == Next(w, e)
  {
    assert [e][..0] == [];
  }

  /** Each move is no event, or one event, of the service. */
  lemma DoRefines(s: System, m: Move)
    requires SystemOk(s)
    ensures Do(s, m).w == Run(s.w, EventsOf(s, m))
  {
    hide SystemOk, Run, Next, OnCommit, OnInsert, OnUpdate;
    RunNone(s.w, if m.Ordinary? then m.event else Step(m.op, !m.GiveUp?));
    if !m.Ordinary? && m.op in s.txs {
      if m.op in Do(s, m).txs {
        OpenKeeps(s, m);
      } else {
        match m
        case Update(o) => UpdateRefines(s, o);
        case Insert(o) => InsertRefines(s, o);
        case Commit(o) => CommitRefines(s, o);
        case GiveUp(o) => GiveUpRefines(s, o);
      }
    }
  }

  /** A transaction that stays open changes nothing but its phase. */
  lemma OpenKeeps(s: System, m: Move)
    requires !m.Ordinary? && m.op in s.txs && m.op in Do(s, m).txs
    ensures Do(s, m) == SetPhase(s, m.op, Do(s, m).txs[m.op].phase)
  {
  }

  // ---- every move keeps the two in step ----

  lemma TxLasts(t: Tables, n: Id, m: Id, tx: T.Tx)
    requires T.TxOk(t, n, tx) && n <= m
    ensures T.TxOk(t, m, tx)
  {
  }

  lemma StatementInside(s: System, e: Event)
    requires Matched(s.w, s.txs) && !Waits(s, e) && WriteOf(s.w, e).Some?
    ensures WriteOf(s.w, e).value.Single? && !T.Blocked(StoreOf(s), WriteOf(s.w, e).value.statement)
    ensures s.w.nextId + 1 <= Next(s.w, e).nextId
  {
  }

  /** The statement of an event, seen by the transactions. */
  lemma StatementOf(s: System, e: Event)
    requires SystemOk(s) && !Waits(s, e)
    ensures var a := WriteOf(s.w, e); var v := Next(s.w, e);
      if a.Some? then
        && a.value.Single? && !T.Blocked(StoreOf(s), a.value.statement)
        && Generated(s.w.db, s.w.nextId, a.value) && s.w.nextId + 1 <= v.nextId
        && v.db == Exec(s.w.db, s.w.now, a.value.statement).0
      else v.db == s.w.db && s.w.nextId <= v.nextId
  {
    hide Inv, T.StoreOk, Generated, T.Blocked;
    if WriteOf(s.w, e).Some? {
      StatementInside(s, e);
    }
    NextDb(s.w, e);
    NextInv(s.w, e);
  }

  /** What an ordinary event does to the tables leaves every open transaction as it was. */
  lemma OrdinaryKeepsTx(s: System, e: Event, o: OpId)
    requires SystemOk(s) && !Waits(s, e) && o in s.txs
    ensures T.TxOk(Next(s.w, e).db, Next(s.w, e).nextId, s.txs[o])
  {
    InTransaction(s, o);
    IdsLater(s.w);
    StatementOf(s, e);
    hide SystemOk, Inv, Next, Exec, Waits, T.TxOk, WriteOf, Keyed;
    var tx, v, a := s.txs[o], Next(s.w, e), WriteOf(s.w, e);
    if a.Some? {
      assert tx in s.txs.Values;
      T.OtherKeepsTx(StoreOf(s), a.value.statement, tx);
      TxLasts(v.db, s.w.nextId + 1, v.nextId, tx);
    } else {
      TxLasts(v.db, s.w.nextId, v.nextId, tx);
    }
  }

  lemma IdsLater(w: World)
    requires Inv(w)
    ensures w.nextId !in w.db.spent && Keyed(w.db, w.nextId)
  {
  }

  /** Which operations an event leaves inside a transaction. */
  lemma Begun(w: World, e: Event, o: OpId)
    requires !(e.Step? && e.op in w.ops && w.ops[e.op].CompleteWriting?)
    ensures var v := Next(w, e);
      && (o in v.ops && v.ops[o].CompleteWriting? <==> Begins(w, e, o) || (o in w.ops && w.ops[o].CompleteWriting?))
      && (Begins(w, e, o) ==> v.ops[o].payment == w.nextId && v.db == w.db && v.nextId == w.nextId + 1)
      && (o in w.ops && w.ops[o].CompleteWriting? ==> v.ops[o] == w.ops[o])
  {
  }

  lemma OrdinaryMatched(s: System, e: Event)
    requires Matched(s.w, s.txs) && !Waits(s, e)
    ensures var u := OnOrdinary(s, e); Matched(u.w, u.txs)
  {
    var u := OnOrdinary(s, e);
    forall o ensures
        && (o in u.txs <==> o in u.w.ops && u.w.ops[o].CompleteWriting?)
        && (o in u.txs ==> TxMatches(u.w.ops[o], u.txs[o]))
    {
      Begun(s.w, e, o);
      hide Next;
    }
  }

  /** A transaction that has just begun. */
  lemma NewTx(s: System, e: Event, o: OpId)
    requires SystemOk(s) && Begins(s.w, e, o) && !Waits(s, e)
    ensures var u := OnOrdinary(s, e);
      && u.txs == s.txs[o := u.txs[o]] && T.TxOk(u.w.db, u.w.nextId, u.txs[o])
      && u.txs[o].phase.Begun? && forall p | p in s.txs :: s.txs[p].payment != u.txs[o].payment
  {
    Begun(s.w, e, o);
    IdsLater(s.w);
    forall p | p in s.txs ensures s.txs[p].payment < s.w.nextId {
      InTransaction(s, p);
    }
    hide SystemOk, Inv, Next;
  }

  lemma OrdinaryStore(s: System, e: Event)
    requires SystemOk(s) && !Waits(s, e) && Keyed(Next(s.w, e).db, Next(s.w, e).nextId)
    ensures T.StoreOk(StoreOf(OnOrdinary(s, e)))
  {
    var u := OnOrdinary(s, e);
    assert T.Exclusive(StoreOf(s));
    forall o | o in s.txs ensures T.TxOk(u.w.db, u.w.nextId, s.txs[o]) {
      OrdinaryKeepsTx(s, e, o);
    }
    if o :| Begins(s.w, e, o) {
      NewTx(s, e, o);
      MoreStore(s, u, o);
    } else {
      assert u.txs == s.txs;
      SameStore(s, u);
    }
  }

  lemma SameStore(s: System, u: System)
    requires T.Exclusive(StoreOf(s)) && Keyed(u.w.db, u.w.nextId) && u.txs == s.txs
    requires forall o | o in s.txs :: T.TxOk(u.w.db, u.w.nextId, s.txs[o])
    ensures T.StoreOk(StoreOf(u))
  {
    hide T.TxOk, Keyed;
  }

  lemma MoreStore(s: System, u: System, o: OpId)
    requires T.Exclusive(StoreOf(s)) && Keyed(u.w.db, u.w.nextId)
    requires forall p | p in s.txs :: T.TxOk(u.w.db, u.w.nextId, s.txs[p])
    requires o in u.txs && u.txs == s.txs[o := u.txs[o]] && T.TxOk(u.w.db, u.w.nextId, u.txs[o])
    requires u.txs[o].phase.Begun? && forall p | p in s.txs :: s.txs[p].payment != u.txs[o].payment
    ensures T.StoreOk(StoreOf(u))
  {
    hide T.TxOk, Keyed;
  }

  lemma LessStore(s: System, u: System, o: OpId)
    requires T.Exclusive(StoreOf(s)) && Keyed(u.w.db, u.w.nextId) && u.txs == s.txs - {o}
    requires forall p | p in s.txs && p != o :: T.TxOk(u.w.db, u.w.nextId, s.txs[p])
    ensures T.StoreOk(StoreOf(u))
  {
    hide T.TxOk, Keyed;
  }

  lemma OrdinaryOk(s: System, e: Event)
    requires SystemOk(s)
    ensures SystemOk(OnOrdinary(s, e))
  {
    if !Waits(s, e) {
      NextInv(s.w, e);
      IdsLater(Next(s.w, e));
      OrdinaryMatched(s, e);
      OrdinaryStore(s, e);
      hide Inv, Next, T.StoreOk, Matched, Keyed;
    }
  }

  lemma OthersStay(s: System, o: OpId, t: Tables, m: Id)
    requires T.StoreOk(StoreOf(s)) && o in s.txs && s.w.nextId <= m
    requires t == s.w.db || (s.txs[o].phase.Inserted? && t == T.OnCommit(s.w.db, s.txs[o]))
    ensures forall p | p in s.txs && p != o :: T.TxOk(t, m, s.txs[p])
  {
    forall p | p in s.txs && p != o ensures T.TxOk(t, m, s.txs[p]) {
      if t != s.w.db {
        T.CommitKeepsTx(StoreOf(s), o, p);
      }
      TxLasts(t, s.w.nextId, m, s.txs[p]);
    }
  }

  lemma EndMatched(s: System, o: OpId, t: Tables, next: Op)
    requires Matched(s.w, s.txs) && o in s.txs && !next.CompleteWriting?
    ensures var u := End(s, o, t, next); Matched(u.w, u.txs)
  {
  }

  /** When a transaction ends, the others stay as they are. */
  lemma EndOk(s: System, o: OpId, t: Tables, next: Op, ok: bool)
    requires SystemOk(s) && o in s.txs && !next.CompleteWriting?
    requires End(s, o, t, next).w == Next(s.w, Step(o, ok))
    requires t == s.w.db || (s.txs[o].phase.Inserted? && t == T.OnCommit(s.w.db, s.txs[o]))
    ensures SystemOk(End(s, o, t, next))
  {
    hide Inv, Next, Matched, T.TxOk, Keyed, T.OnCommit;
    var u := End(s, o, t, next);
    NextInv(s.w, Step(o, ok));
    IdsLater(u.w);
    OthersStay(s, o, t, u.w.nextId);
    EndMatched(s, o, t, next);
    LessStore(s, u, o);
  }

  lemma PhaseMatched(s: System, o: OpId, phase: T.Phase)
    requires Matched(s.w, s.txs) && o in s.txs && (phase.Begun? || phase.Updated? || phase.Inserted?)
    ensures Matched(s.w, SetPhase(s, o, phase).txs)
  {
  }

  /** A phase change is an action of the split store. */
  lemma PhaseOk(s: System, o: OpId, u: System, a: T.Action)
    requires SystemOk(s) && o in s.txs && o in u.txs && u == SetPhase(s, o, u.txs[o].phase)
    requires T.Act(StoreOf(s), a) == StoreOf(u)
    requires var phase := u.txs[o].phase; phase.Begun? || phase.Updated? || phase.Inserted?
    ensures SystemOk(u)
  {
    hide Inv, T.StoreOk, T.Act, Matched;
    T.ActOk(StoreOf(s), a);
    PhaseMatched(s, o, u.txs[o].phase);
  }

  lemma UpdateOk(s: System, o: OpId)
    requires SystemOk(s) && o in s.txs
    ensures SystemOk(OnUpdate(s, o))
  {
    hide SystemOk, Inv, Next, Exec;
    var u := OnUpdate(s, o);
    if o !in u.txs {
      UpdateRefines(s, o);
      EndOk(s, o, s.w.db, Returned(Refused(Conflict)), true);
    } else if u != s {
      PhaseOk(s, o, u, T.Update(o));
    }
  }

  lemma InsertOk(s: System, o: OpId)
    requires SystemOk(s) && o in s.txs
    ensures SystemOk(OnInsert(s, o))
  {
    hide SystemOk, Inv, Next, PaymentViolation;
    var u := OnInsert(s, o);
    if o !in u.txs {
      InsertRefines(s, o);
      EndOk(s, o, s.w.db, u.w.ops[o], true);
    } else if u != s {
      PhaseOk(s, o, u, T.Insert(o));
    }
  }

  lemma CommitOk(s: System, o: OpId)
    requires SystemOk(s) && o in s.txs
    ensures SystemOk(OnCommit(s, o))
  {
    var u := OnCommit(s, o);
    if o !in u.txs {
      CommitRefines(s, o);
      EndOk(s, o, u.w.db, u.w.ops[o], true);
    }
  }

  lemma DoOk(s: System, m: Move)
    requires SystemOk(s)
    ensures SystemOk(Do(s, m))
  {
    hide SystemOk, OnCommit, OnInsert, OnUpdate, OnOrdinary;
    match m
    case Ordinary(e) => OrdinaryOk(s, e);
    case Update(o) => if o in s.txs { UpdateOk(s, o); }
    case Insert(o) => if o in s.txs { InsertOk(s, o); }
    case Commit(o) => if o in s.txs { CommitOk(s, o); }
    case GiveUp(o) =>
      if o in s.txs {
        GiveUpRefines(s, o);
        EndOk(s, o, s.w.db, Returned(Refused(Internal)), false);
      }
  }

  // ---- split runs are runs ----

  /** Taking the transactions apart adds no behaviour: the service state of every split run is
      the state of a run in which each transaction is one step, taken when it ends. */
  lemma {:induction false} SplitRunsAreRuns(s: System, ms: seq<Move>)
    requires SystemOk(s)
    ensures SystemOk(DoAll(s, ms)) && DoAll(s, ms).w == Run(s.w, AllEvents(s, ms))
  {
    if ms != [] {
      var before, m := ms[..|ms| - 1], ms[|ms| - 1];
      SplitRunsAreRuns(s, before);
      DoOk(DoAll(s, before), m);
      DoRefines(DoAll(s, before), m);
      RunConcat(s.w, AllEvents(s, before), EventsOf(DoAll(s, before), m));
    }
  }

  /** From the empty service: every state of a split run is a reachable state, and satisfies
      every theorem about those. */
  lemma SplitStatesAreReachable(now: Time, ms: seq<Move>)
    ensures var s := System(Init(now), map[]);
      DoAll(s, ms).w == Run(Init(now), AllEvents(s, ms)) && Inv(DoAll(s, ms).w)
  {
    var s := System(Init(now), map[]);
    Reachable(now, []);
    assert SystemOk(s);
    SplitRunsAreRuns(s, ms);
  }

  // ---- runs are split runs ----

  /** Every open transaction except perhaps `o` has only begun: nothing is locked or reserved. */
  predicate OthersBegun(s: System, o: OpId) {
    forall p | p in s.txs && p != o :: s.txs[p].phase.Begun?
  }

  predicate AllBegun(s: System) {
    forall p | p in s.txs :: s.txs[p].phase.Begun?
  }

  lemma InsertStays(s: System, o: OpId)
    requires o in s.txs && OthersBegun(s, o) && s.txs[o].phase.Updated? && o in OnInsert(s, o).txs
    ensures var u := OnInsert(s, o); u == SetPhase(s, o, u.txs[o].phase) && u.txs[o].phase.Inserted?
  {
    hide PaymentViolation;
  }

  lemma CommitEnds(s: System, o: OpId)
    requires o in s.txs && s.txs[o].phase.Inserted? && o in s.w.ops && s.w.ops[o].CompleteWriting?
    ensures o !in OnCommit(s, o).txs && OnCommit(s, o).txs == s.txs - {o}
  {
  }

  lemma UpdateStays(s: System, o: OpId)
    requires o in s.txs && OthersBegun(s, o) && s.txs[o].phase.Begun? && o in OnUpdate(s, o).txs
    ensures var u := OnUpdate(s, o); u == SetPhase(s, o, u.txs[o].phase) && u.txs[o].phase.Updated?
  {
  }

  lemma InsertAlone(s: System, o: OpId)
    requires SystemOk(s) && o in s.txs && OthersBegun(s, o) && s.txs[o].phase.Updated?
    ensures var u := Do(Do(s, Insert(o)), Commit(o)); u.w == Next(s.w, Step(o, true)) && u.txs == s.txs - {o}
  {
    hide SystemOk, Inv, Next, OnInsert, OnCommit, T.TxOk, TxMatches;
    InTransaction(s, o);
    InsertOk(s, o);
    if o !in OnInsert(s, o).txs {
      InsertRefines(s, o);
      InsertEnds(s, o);
    } else {
      InsertStays(s, o);
      CommitEnds(OnInsert(s, o), o);
      CommitRefines(OnInsert(s, o), o);
    }
  }

  /** A transaction that runs without interruption, while the others have only begun, is that
      one step. */
  lemma AloneIsOneStep(s: System, o: OpId)
    requires SystemOk(s) && o in s.txs && OthersBegun(s, o) && s.txs[o].phase.Begun?
    ensures var u := Do(Do(Do(s, Update(o)), Insert(o)), Commit(o));
      u.w == Next(s.w, Step(o, true)) && u.txs == s.txs - {o}
  {
    hide SystemOk, Inv, Next, OnInsert, OnCommit, OnUpdate;
    UpdateOk(s, o);
    if o !in OnUpdate(s, o).txs {
      UpdateRefines(s, o);
      UpdateEnds(s, o);
    } else {
      UpdateStays(s, o);
      InsertAlone(OnUpdate(s, o), o);
    }
  }

  lemma NobodyWaits(s: System, e: Event)
    requires AllBegun(s) && !(e.Step? && e.op in s.txs)
    ensures !Waits(s, e)
  {
  }

  /** The moves that play one event of the service. */
  function MovesOf(s: System, e: Event): seq<Move> {
    if e.Step? && e.op in s.txs then
      if e.ok then [Update(e.op), Insert(e.op), Commit(e.op)] else [GiveUp(e.op)]
    else [Ordinary(e)]
  }

  lemma DoShort(s: System, a: Move, b: Move, c: Move)
    ensures DoAll(s, [a]) == Do(s, a)
    ensures DoAll(s, [a, b, c]) == Do(Do(Do(s, a), b), c)
  {
    assert [a][..0] == [] && [a, b][..1] == [a] && [a, b, c][..2] == [a, b];
  }

  lemma MovesPlay(s: System, e: Event)
    requires SystemOk(s) && AllBegun(s)
    ensures var u := DoAll(s, MovesOf(s, e)); u.w == Next(s.w, e) && AllBegun(u)
  {
    hide SystemOk, Inv, Next, Do, Waits, DoAll;
    if e.Step? && e.op in s.txs {
      DoShort(s, Update(e.op), Insert(e.op), Commit(e.op));
      DoShort(s, GiveUp(e.op), GiveUp(e.op), GiveUp(e.op));
      if e.ok {
        AloneIsOneStep(s, e.op);
      } else {
        GivesUp(s, e.op);
      }
    } else {
      DoShort(s, Ordinary(e), Ordinary(e), Ordinary(e));
      NobodyWaits(s, e);
      PlaysOrdinary(s, e);
    }
  }

  lemma GivesUp(s: System, o: OpId)
    requires SystemOk(s) && o in s.txs
    ensures Do(s, GiveUp(o)).w == Next(s.w, Step(o, false)) && Do(s, GiveUp(o)).txs == s.txs - {o}
  {
    hide SystemOk, Inv, Next;
    GiveUpRefines(s, o);
  }

  lemma PlaysOrdinary(s: System, e: Event)
    requires AllBegun(s) && !Waits(s, e)
    ensures Do(s, Ordinary(e)).w == Next(s.w, e) && AllBegun(Do(s, Ordinary(e)))
  {
    hide Next, Waits;
  }

  lemma {:induction false} DoConcat(s: System, a: seq<Move>, b: seq<Move>)
    ensures DoAll(s, a + b) == DoAll(DoAll(s, a), b)
  {
    if b == [] {
      assert a + b == a;
    } else {
      var n := |b| - 1;
      assert (a + b)[..|a + b| - 1] == a + b[..n];
      DoConcat(s, a, b[..n]);
    }
  }

  /** Taking the transactions apart loses no behaviour either: every run is the service part of
      a split run. */
  lemma {:induction false} RunsAreSplitRuns(now: Time, es: seq<Event>) returns (ms: seq<Move>)
    ensures var s := DoAll(System(Init(now), map[]), ms); s.w == Run(Init(now), es) && AllBegun(s)
  {
    var start := System(Init(now), map[]);
    if es == [] {
      ms := [];
    } else {
      hide Next, Do, Inv, AllBegun;
      var before := RunsAreSplitRuns(now, es[..|es| - 1]);
      StartIsOk(now);
      SplitRunsAreRuns(start, before);
      var s := DoAll(start, before);
      MovesPlay(s, es[|es| - 1]);
      ms := before + MovesOf(s, es[|es| - 1]);
      DoConcat(start, before, MovesOf(s, es[|es| - 1]));
    }
  }

  lemma StartIsOk(now: Time)
    ensures SystemOk(System(Init(now), map[]))
  {
    Reachable(now, []);
  }
}

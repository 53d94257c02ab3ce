/** The transaction of Complete taken apart: Begin, Update, Insert and Commit or Rollback as
    separate steps, with row locks, unique-index reservations and buffered writes, interleaved
    with other transactions and with single statements. It refines the atomic CompleteTx. */
module Transaction {
  import opened Domain
  import opened Sql
  import opened Integrity

  type TxId = nat

  /** A transaction buffers its writes until it commits. `Broken` has met a failing statement
      and `Closed` has committed or rolled back; without a reply the failure was internal. */
  datatype Phase =
    | Begun
    | Updated(prior: Pickup)
    | Inserted(prior: Pickup, row: Payment)
    | Broken(why: Option<Reply>)
    | Closed(result: Option<Reply>)

  /** `stamp` is the value of NOW() inside the transaction, and `payment` the uuid its INSERT
      generates, drawn when the transaction begins. */
  datatype Tx = Tx(pickup: Id, household: Id, amount: Money, payment: Id, stamp: Time, phase: Phase)

  datatype Store = Store(t: Tables, now: Time, nextId: Id, txs: map<TxId, Tx>)

  datatype Action =
    | Begin(x: TxId, pickup: Id, household: Id, amount: Money)
    | Update(x: TxId)
    | Insert(x: TxId)
    | Commit(x: TxId)
    | Rollback(x: TxId)
    | Fault(x: TxId)
    | Other(statement: Statement)
    | Pass(elapsed: nat)

  // ---- locks and reservations ----

  predicate Locks(tx: Tx, i: Id) {
    (tx.phase.Updated? || tx.phase.Inserted?) && tx.pickup == i
  }

  predicate Reserves(tx: Tx, waste: Id, household: Id) {
    tx.phase.Inserted? && (tx.phase.row.waste == waste || tx.phase.row.household == household)
  }

  predicate Locked(s: Store, i: Id) {
    exists x | x in s.txs :: Locks(s.txs[x], i)
  }

  predicate Reserved(s: Store, waste: Id, household: Id) {
    exists x | x in s.txs :: Reserves(s.txs[x], waste, household)
  }

  /** A statement outside the transactions waits while it would write a locked row, delete a
      row an open transaction depends on, or insert a key that is reserved. */
  predicate Blocked(s: Store, st: Statement) {
    match st
    case DeleteHousehold(h) =>
      exists x | x in s.txs ::
        (s.txs[x].phase.Updated? || s.txs[x].phase.Inserted?)
        && (s.txs[x].phase.prior.household == h || (s.txs[x].phase.Inserted? && s.txs[x].phase.row.household == h))
    case UpdatePickups(ids, from, _, _) => exists i | i in Matching(s.t, ids, from) :: Locked(s, i)
    case InsertPayment(_, household, waste, _) => Reserved(s, waste, household)
    case _ => false
  }

  // ---- steps ----

  function Set(s: Store, x: TxId, phase: Phase): Store
    requires x in s.txs
  {
    s.(txs := s.txs[x := s.txs[x].(phase := phase)])
  }

  predicate IsOpen(phase: Phase) {
    !phase.Closed?
  }

  function OnUpdate(s: Store, tx: Tx): Phase {
    if tx.pickup in s.t.pickups && s.t.pickups[tx.pickup].status == Scheduled then Updated(s.t.pickups[tx.pickup])
    else Broken(Some(Rows(0)))
  }

  /** The INSERT sees the transaction's own update, which changes no constraint, and the
      committed rows of everybody else. */
  function OnInsert(s: Store, tx: Tx): Phase
    requires tx.phase.Updated?
  {
    var bad := PaymentViolation(s.t, tx.household, tx.pickup, tx.amount);
    if bad.Some? then Broken(Some(Violated(bad.value)))
    else Inserted(tx.phase.prior, NewPayment(tx.payment, tx.household, tx.pickup, tx.amount, tx.stamp))
  }

  function OnCommit(t: Tables, tx: Tx): Tables
    requires tx.phase.Inserted?
  {
    t.(pickups := t.pickups[tx.pickup := WithStatus(tx.phase.prior, Completed, None, tx.stamp)],
       payments := t.payments[tx.phase.row.id := tx.phase.row],
       spent := t.spent + {tx.phase.row.id})
  }

  /** An action that is not enabled, because it is out of turn or has to wait, does nothing. */
  function Act(s: Store, a: Action): Store {
    match a
    case Begin(x, pickup, household, amount) =>
      if x in s.txs then s
      else s.(txs := s.txs[x := Tx(pickup, household, amount, s.nextId, s.now, Begun)], nextId := s.nextId + 1)
    case Update(x) =>
      if x in s.txs && s.txs[x].phase.Begun? && !Locked(s, s.txs[x].pickup) then Set(s, x, OnUpdate(s, s.txs[x])) else s
    case Insert(x) =>
      if x in s.txs && s.txs[x].phase.Updated? && !Reserved(s, s.txs[x].pickup, s.txs[x].household) then
        Set(s, x, OnInsert(s, s.txs[x]))
      else s
    case Commit(x) =>
      if x in s.txs && s.txs[x].phase.Inserted? then
        Set(s, x, Closed(Some(Rows(1)))).(t := OnCommit(s.t, s.txs[x]))
      else s
    case Rollback(x) =>
      if x in s.txs && IsOpen(s.txs[x].phase) then
        Set(s, x, Closed(if s.txs[x].phase.Broken? then s.txs[x].phase.why else None))
      else s
    case Fault(x) =>
      if x in s.txs && IsOpen(s.txs[x].phase) && !s.txs[x].phase.Broken? then Set(s, x, Broken(None)) else s
    case Other(st) =>
      if Blocked(s, st) || !Generated(s.t, s.nextId, Single(st)) then s
      else s.(t := Exec(s.t, s.now, st).0, nextId := s.nextId + 1)
    case Pass(elapsed) => s.(now := s.now + elapsed)
  }

  function RunAll(s: Store, actions: seq<Action>): Store {
    if actions == [] then s else Act(RunAll(s, actions[..|actions| - 1]), actions[|actions| - 1])
  }

  // ---- what locks and reservations guarantee ----

  /** The uuid of an open transaction is unused. The row it has locked is still the one it
      updated, and the payment it has inserted would still be accepted. */
  ghost predicate TxOk(t: Tables, n: Id, tx: Tx) {
    && (IsOpen(tx.phase) ==> tx.payment < n && tx.payment !in t.spent)
    && match tx.phase
       case Updated(prior) =>
         prior.status == Scheduled && tx.pickup in t.pickups && t.pickups[tx.pickup] == prior
       case Inserted(prior, row) =>
         && prior.status == Scheduled && tx.pickup in t.pickups && t.pickups[tx.pickup] == prior
         && row == NewPayment(tx.payment, tx.household, tx.pickup, tx.amount, tx.stamp)
         && PaymentViolation(t, tx.household, tx.pickup, tx.amount).None?
       case _ => true
  }

  ghost predicate Exclusive(s: Store) {
    forall x, y | x in s.txs && y in s.txs && x != y ::
      && (s.txs[x].phase.Updated? || s.txs[x].phase.Inserted? ==> !Locks(s.txs[y], s.txs[x].pickup))
      && (s.txs[x].phase.Inserted? && s.txs[y].phase.Inserted? ==> s.txs[x].household != s.txs[y].household)
      && (IsOpen(s.txs[x].phase) && IsOpen(s.txs[y].phase) ==> s.txs[x].payment != s.txs[y].payment)
  }

  ghost predicate StoreOk(s: Store) {
    && Keyed(s.t, s.nextId)
    && Exclusive(s)
    && forall x | x in s.txs :: TxOk(s.t, s.nextId, s.txs[x])
  }

  lemma OtherKeepsTx(s: Store, st: Statement, tx: Tx)
    requires Keyed(s.t, s.nextId) && TxOk(s.t, s.nextId, tx) && Generated(s.t, s.nextId, Single(st))
    requires tx in s.txs.Values && !Blocked(s, st)
    ensures TxOk(Exec(s.t, s.now, st).0, s.nextId + 1, tx)
  {
  }

  lemma OtherKeyed(s: Store, st: Statement)
    requires Keyed(s.t, s.nextId) && Generated(s.t, s.nextId, Single(st))
    ensures Keyed(Exec(s.t, s.now, st).0, s.nextId + 1)
  {
  }

  /** A commit of one transaction leaves every other open one its lock and its reservation. */
  lemma CommitKeepsTx(s: Store, x: TxId, y: TxId)
    requires StoreOk(s) && x in s.txs && y in s.txs && x != y && s.txs[x].phase.Inserted?
    ensures TxOk(OnCommit(s.t, s.txs[x]), s.nextId, s.txs[y])
  {
  }

  lemma CommitOk(s: Store, x: TxId)
    requires StoreOk(s) && x in s.txs && s.txs[x].phase.Inserted?
    ensures StoreOk(Act(s, Commit(x)))
  {
    var u := Act(s, Commit(x));
    forall y | y in u.txs ensures TxOk(u.t, u.nextId, u.txs[y]) {
      if y != x {
        CommitKeepsTx(s, x, y);
      }
    }
  }

  lemma OtherOk(s: Store, st: Statement)
    requires StoreOk(s) && !Blocked(s, st) && Generated(s.t, s.nextId, Single(st))
    ensures StoreOk(Act(s, Other(st)))
  {
    var u := Act(s, Other(st));
    OtherKeyed(s, st);
    forall y | y in u.txs ensures TxOk(u.t, u.nextId, u.txs[y]) {
      OtherKeepsTx(s, st, s.txs[y]);
    }
  }

  lemma InsertOk(s: Store, x: TxId)
    requires StoreOk(s) && x in s.txs && s.txs[x].phase.Updated? && !Reserved(s, s.txs[x].pickup, s.txs[x].household)
    ensures StoreOk(Act(s, Insert(x)))
  {
  }

  lemma UpdateOk(s: Store, x: TxId)
    requires StoreOk(s) && x in s.txs && s.txs[x].phase.Begun? && !Locked(s, s.txs[x].pickup)
    ensures StoreOk(Act(s, Update(x)))
  {
  }

  /** Every action keeps locks exclusive and transactions committable. */
  lemma ActOk(s: Store, a: Action)
    requires StoreOk(s)
    ensures StoreOk(Act(s, a))
  {
    match a
    case Update(x) => if Act(s, a) != s { UpdateOk(s, x); }
    case Insert(x) => if Act(s, a) != s { InsertOk(s, x); }
    case Commit(x) => if x in s.txs && s.txs[x].phase.Inserted? { CommitOk(s, x); }
    case Other(st) => if !Blocked(s, st) && Generated(s.t, s.nextId, Single(st)) { OtherOk(s, st); }
    case _ =>
  }

  // ---- refinement ----

  /** The transaction as one atomic write. */
  function Whole(tx: Tx): Write {
    CompleteTx(tx.pickup, tx.payment, tx.household, tx.amount, tx.stamp)
  }

  /** The atomic write, with its time, that one action amounts to. A transaction takes effect
      at its commit, or, if it is turned down, at the statement that fails. */
  function Atomic(s: Store, a: Action): Option<(Write, Time)> {
    match a
    case Update(x) =>
      if x in s.txs && s.txs[x].phase.Begun? && Act(s, a).txs[x].phase.Broken? then Some((Whole(s.txs[x]), s.now))
      else None
    case Insert(x) =>
      if x in s.txs && s.txs[x].phase.Updated? && Act(s, a).txs[x].phase.Broken? then Some((Whole(s.txs[x]), s.now))
      else None
    case Commit(x) =>
      if x in s.txs && s.txs[x].phase.Inserted? then Some((Whole(s.txs[x]), s.now)) else None
    case Other(st) =>
      if Blocked(s, st) || !Generated(s.t, s.nextId, Single(st)) then None else Some((Single(st), s.now))
    case _ => None
  }

  /** Committed tables change by atomic writes only, and the transaction learns the answer the
      atomic write gives at that moment. */
  lemma ActRefines(s: Store, a: Action)
    requires StoreOk(s)
    ensures var w := Atomic(s, a); var u := Act(s, a);
      && u.t == (if w.Some? then Apply(s.t, w.value.1, w.value.0).0 else s.t)
      && (w.Some? && a.Commit? ==>
            Apply(s.t, w.value.1, w.value.0).1 == Rows(1) && u.txs[a.x].phase == Closed(Some(Rows(1))))
      && (w.Some? && (a.Update? || a.Insert?) ==>
            u.txs[a.x].phase == Broken(Some(Apply(s.t, w.value.1, w.value.0).1)))
  {
    if Atomic(s, a).Some? && !a.Other? {
      assert TxOk(s.t, s.nextId, s.txs[a.x]);
      CompleteTxCases(s.t, s.now, Whole(s.txs[a.x]));
    }
  }

  /** Without internal failures a transaction goes through, at its commit, exactly if at that
      moment its pickup is still scheduled and its payment violates no constraint; otherwise it
      is turned down at one of its statements. */
  lemma DecidedBy(s: Store, a: Action)
    requires StoreOk(s) && Atomic(s, a).Some? && !a.Other?
    ensures var tx := s.txs[a.x];
      a.Commit? <==>
        && tx.pickup in s.t.pickups && s.t.pickups[tx.pickup].status == Scheduled
        && PaymentViolation(s.t, tx.household, tx.pickup, tx.amount).None?
  {
    assert TxOk(s.t, s.nextId, s.txs[a.x]);
  }

  function AtomicRun(s: Store, actions: seq<Action>): seq<(Write, Time)> {
    if actions == [] then []
    else
      var before := actions[..|actions| - 1];
      var w := Atomic(RunAll(s, before), actions[|actions| - 1]);
      AtomicRun(s, before) + if w.Some? then [w.value] else []
  }

  function ApplyAll(t: Tables, ws: seq<(Write, Time)>): Tables {
    if ws == [] then t
    else Apply(ApplyAll(t, ws[..|ws| - 1]), ws[|ws| - 1].1, ws[|ws| - 1].0).0
  }

  /** Interleaved transactions refine atomic ones: the committed tables of any run are those
      of a run of atomic writes, each transaction in one piece or without effect. */
  lemma {:induction false} TransactionsAreAtomic(s: Store, actions: seq<Action>)
    requires StoreOk(s)
    ensures StoreOk(RunAll(s, actions))
    ensures RunAll(s, actions).t == ApplyAll(s.t, AtomicRun(s, actions))
  {
    if actions != [] {
      var before := actions[..|actions| - 1];
      var a := actions[|actions| - 1];
      TransactionsAreAtomic(s, before);
      ActOk(RunAll(s, before), a);
      ActRefines(RunAll(s, before), a);
      var w := Atomic(RunAll(s, before), a);
      if w.Some? {
        assert AtomicRun(s, actions) == AtomicRun(s, before) + [w.value];
        assert AtomicRun(s, actions)[..|AtomicRun(s, before)|] == AtomicRun(s, before);
      } else {
        assert AtomicRun(s, actions) == AtomicRun(s, before);
      }
    }
  }

  // ---- one answer per transaction ----

  predicate Of(a: Action, x: TxId) {
    (a.Begin? || a.Update? || a.Insert? || a.Commit? || a.Rollback? || a.Fault?) && a.x == x
  }

  /** The replies that the atomic writes of transaction `x` give along a run. */
  function Replies(s: Store, actions: seq<Action>, x: TxId): seq<Reply> {
    if actions == [] then []
    else
      var before := actions[..|actions| - 1];
      var a := actions[|actions| - 1];
      var u := RunAll(s, before);
      var w := Atomic(u, a);
      Replies(s, before, x) + if Of(a, x) && w.Some? then [Apply(u.t, w.value.1, w.value.0).1] else []
  }

  /** What a transaction has been told so far. */
  function Told(s: Store, x: TxId): seq<Reply> {
    if x !in s.txs then []
    else
      match s.txs[x].phase
      case Broken(Some(r)) => [r]
      case Closed(Some(r)) => [r]
      case _ => []
  }

  /** A transaction amounts to at most one atomic write, and what it has been told is the
      reply of that write; while it is open, or if it failed internally, it amounts to none. */
  lemma {:induction false} OneReply(s: Store, actions: seq<Action>, x: TxId)
    requires StoreOk(s) && x !in s.txs
    ensures Replies(s, actions, x) == Told(RunAll(s, actions), x)
  {
    if actions != [] {
      var before := actions[..|actions| - 1];
      OneReply(s, before, x);
      TransactionsAreAtomic(s, before);
      ReplyStep(RunAll(s, before), actions[|actions| - 1], x);
    }
  }

  lemma ReplyStep(s: Store, a: Action, x: TxId)
    requires StoreOk(s)
    ensures var w := Atomic(s, a);
      Told(Act(s, a), x) == Told(s, x) + if Of(a, x) && w.Some? then [Apply(s.t, w.value.1, w.value.0).1] else []
  {
    ActRefines(s, a);
  }

  // ---- split runs keep the table invariants ----

  /** What Complete read before it began is still right: the payment is for the pickup's own
      household and at the canonical amount. */
  ghost predicate Entitled(t: Tables, n: Id, tx: Tx) {
    tx.pickup < n && RightPayment(t, tx.pickup, tx.household, tx.amount)
  }

  ghost predicate Healthy(s: Store) {
    && StoreOk(s) && Sound(s.t, s.nextId)
    && forall x | x in s.txs :: Entitled(s.t, s.nextId, s.txs[x])
  }

  /** What the services grant: a transaction begins after a read, and other statements are the
      ones the services issue. */
  ghost predicate Rightful(s: Store, a: Action) {
    match a
    case Begin(_, pickup, household, amount) => pickup < s.nextId && RightPayment(s.t, pickup, household, amount)
    case Other(st) => Issued(Single(st)) && Justified(s.t, Single(st))
    case _ => true
  }

  ghost predicate RightfulRun(s: Store, actions: seq<Action>) {
    actions != [] ==>
      var before := actions[..|actions| - 1];
      RightfulRun(s, before) && Rightful(RunAll(s, before), actions[|actions| - 1])
  }

  /** A commit spends an id that was drawn before. */
  lemma CommitSound(s: Store, tx: Tx)
    requires Sound(s.t, s.nextId) && TxOk(s.t, s.nextId, tx) && tx.phase.Inserted? && Entitled(s.t, s.nextId, tx)
    ensures var u := Apply(s.t, s.now, Whole(tx)).0; Sound(u, s.nextId) && Evolves(s.t, s.nextId, u)
  {
    hide Apply, Linked, Settled, Coherent, Priced, OnePerPickup, OnePending, Evolves;
    ApplySound(s.t, s.nextId, s.now, Whole(tx));
    CompleteTxCases(s.t, s.now, Whole(tx));
  }

  lemma StaysEntitled(t: Tables, n: Id, u: Tables, m: Id, tx: Tx)
    requires Evolves(t, n, u) && n <= m && Entitled(t, n, tx)
    ensures Entitled(u, m, tx)
  {
  }

  lemma SameTables(t: Tables, n: Id, m: Id)
    requires Sound(t, n) && n <= m
    ensures Sound(t, m) && Evolves(t, n, t)
  {
  }

  lemma ActTables(s: Store, a: Action)
    requires Healthy(s) && Rightful(s, a)
    ensures var u := Act(s, a); s.nextId <= u.nextId && Sound(u.t, u.nextId) && Evolves(s.t, s.nextId, u.t)
  {
    var u := Act(s, a);
    SameTables(s.t, s.nextId, s.nextId);
    SameTables(s.t, s.nextId, s.nextId + 1);
    match a
    case Commit(x) =>
      if x in s.txs && s.txs[x].phase.Inserted? {
        ActRefines(s, a);
        CommitSound(s, s.txs[x]);
      }
    case Other(st) =>
      if !Blocked(s, st) && Generated(s.t, s.nextId, Single(st)) {
        ApplySound(s.t, s.nextId, s.now, Single(st));
      }
    case _ =>
  }

  lemma ActHealthy(s: Store, a: Action)
    requires Healthy(s) && Rightful(s, a)
    ensures Healthy(Act(s, a))
  {
    hide Sound, StoreOk, Evolves, RightPayment;
    ActOk(s, a);
    ActTables(s, a);
    var u := Act(s, a);
    forall x | x in u.txs ensures Entitled(u.t, u.nextId, u.txs[x]) {
      if x in s.txs {
        StaysEntitled(s.t, s.nextId, u.t, u.nextId, s.txs[x]);
      }
    }
  }

  /** However statements of transactions and other statements interleave, all table invariants
      hold: foreign keys, uniqueness, coherence, prices, and a payment for each completed pickup. */
  lemma {:induction false} SplitRunsStaySound(s: Store, actions: seq<Action>)
    requires Healthy(s) && RightfulRun(s, actions)
    ensures Healthy(RunAll(s, actions))
  {
    if actions != [] {
      var before := actions[..|actions| - 1];
      SplitRunsStaySound(s, before);
      ActHealthy(RunAll(s, before), actions[|actions| - 1]);
    }
  }
}

/** The invariant of the running service: table integrity, truthfulness of every in-flight
    snapshot, and a complete account of the object store. */
module Invariant {
  import opened Domain
  import opened Sql
  import opened Integrity
  import opened Machine

  // ---- snapshots ----

  /** A pickup snapshot: the row, if it still exists, has evolved from it. */
  ghost predicate SnapOk(t: Tables, n: Id, id: Id, snap: Pickup) {
    id < n && snap.id == id && (id in t.pickups ==> PickupEvolves(snap, t.pickups[id]))
  }

  ghost predicate BillOk(t: Tables, id: Id, bill: Payment) {
    && id in t.spent && bill.id == id && bill.status == PaymentPending
    && (id in t.payments ==> PaymentEvolves(bill, t.payments[id]))
  }

  /** What an operation may rely on at each program point, whatever ran in between. */
  ghost predicate OpOk(t: Tables, n: Id, op: Op) {
    match op
    case CreateInserting(household, _, _, known) =>
      known <= t.spent &&
      forall i | i in t.payments && t.payments[i].household == household && t.payments[i].status == PaymentPending ::
        i !in known
    case ScheduleReading(id, _) => id < n
    case ScheduleChecking(id, _, snap) =>
      SnapOk(t, n, id, snap) && PickupCoherent(snap) && snap.status == Pending
      && (snap.kind == Electronic ==> snap.safetyCheck)
    case ScheduleUpdating(id, _, snap) =>
      SnapOk(t, n, id, snap) && PickupCoherent(snap) && snap.status == Pending
      && (snap.kind == Electronic ==> snap.safetyCheck)
    case CompleteReading(id) => id < n
    case CompleteBeginning(id, snap) => SnapOk(t, n, id, snap) && snap.status == Scheduled
    case CompleteWriting(id, snap, _, _) => SnapOk(t, n, id, snap) && snap.status == Scheduled
    case CancelUpdating(id) => id < n
    case CancelReading(id, done, seen) =>
      && id < n
      && (done || id in t.pickups ==> seen.Some?)
      && (id in t.pickups ==> t.pickups[id].kind == seen.value.kind)
      && (id in t.pickups && done ==> t.pickups[id].status == Canceled)
      && (id in t.pickups && !done ==> Rank(t.pickups[id].status) == 2 && seen.value.status == t.pickups[id].status)
    case PayReading(_, waste) => waste < n
    case PayInserting(household, waste, amount) => waste < n && 0 < amount && RightPayment(t, waste, household, amount)
    case ConfirmReading(id) => id < n
    case ConfirmKeying(id, bill) => BillOk(t, id, bill)
    case ConfirmUploading(id, bill, key) => BillOk(t, id, bill) && key.payment == id
    case ConfirmStamping(id, bill, key) => BillOk(t, id, bill) && key.payment == id
    case ConfirmUpdating(id, bill, key, _) => BillOk(t, id, bill) && key.payment == id
    case CycleCanceling(before, ids) =>
      forall i | i in ids ::
        i < n && (i in t.pickups ==> t.pickups[i].kind == Organic && t.pickups[i].createdAt < before)
    case CycleCounting(ids, hit) => hit <= ids
    case _ => true
  }

  ghost predicate OpsOk(w: World) {
    forall o | o in w.ops :: OpOk(w.db, w.nextId, w.ops[o])
  }

  // ---- ids drawn for payments ----

  /** The id a transaction of Complete has drawn was never in the table. */
  predicate Unspent(t: Tables, n: Id, op: Op) {
    op.CompleteWriting? ==> op.payment < n && op.payment !in t.spent
  }

  /** That holds of all of them, and no two have drawn the same one. */
  ghost predicate Drawn(w: World) {
    && (forall o | o in w.ops :: Unspent(w.db, w.nextId, w.ops[o]))
    && (forall o, p | o in w.ops && p in w.ops && w.ops[o].CompleteWriting? && w.ops[p].CompleteWriting?
                      && w.ops[o].payment == w.ops[p].payment :: o == p)
  }

  // ---- the object store ----

  function KeyOf(op: Op): Option<Key> {
    match op
    case ConfirmUploading(_, _, key) => Some(key)
    case ConfirmStamping(_, _, key) => Some(key)
    case ConfirmUpdating(_, _, key, _) => Some(key)
    case ConfirmCleaning(key, _) => Some(key)
    case _ => None
  }

  /** The operation has uploaded its object and has not yet given it away. */
  predicate Holds(op: Op) {
    KeyOf(op).Some? && !op.ConfirmUploading?
  }

  function Held(w: World): set<Key> {
    set o | o in w.ops && Holds(w.ops[o]) :: KeyOf(w.ops[o]).value
  }

  /** Objects in the store are exactly the proofs of payments, the objects in-flight confirms
      hold, the ledger of failed cleanups and the proofs orphaned by cascades. */
  ghost predicate Accounted(w: World) {
    && w.objects == Proofs(w.db) + Held(w) + w.leaked + w.erased
    && Proofs(w.db) !! Held(w) !! w.leaked !! w.erased
  }

  /** Keys in use are old, and no two operations use the same one. */
  ghost predicate KeysDistinct(w: World) {
    && (forall k | k in w.objects :: k.nonce < w.nextId)
    && (forall o | o in w.ops && KeyOf(w.ops[o]).Some? :: KeyOf(w.ops[o]).value.nonce < w.nextId)
    && (forall o | o in w.ops && w.ops[o].ConfirmUploading? :: w.ops[o].key !in w.objects)
    && (forall o, p | o in w.ops && p in w.ops && KeyOf(w.ops[o]).Some? && KeyOf(w.ops[o]) == KeyOf(w.ops[p]) :: o == p)
  }

  ghost predicate Inv(w: World) {
    Sound(w.db, w.nextId) && OpsOk(w) && Drawn(w) && Accounted(w) && KeysDistinct(w)
  }

  // ---- tables and snapshots ----

  lemma OpStable(t: Tables, n: Id, u: Tables, m: Id, op: Op)
    requires Keyed(t, n) && Evolves(t, n, u) && n <= m && OpOk(t, n, op)
    ensures OpOk(u, m, op)
  {
  }

  /** Snapshots are stale, but what they say about identity fields is still true, so the next
      write of every operation is justified. */
  lemma CallJustified(w: World, op: Op)
    requires Sound(w.db, w.nextId) && OpOk(w.db, w.nextId, op) && Unspent(w.db, w.nextId, op)
    requires CallOf(op, w.nextId).Db?
    ensures var a := CallOf(op, w.nextId).write; Issued(a) && Generated(w.db, w.nextId, a) && Justified(w.db, a)
  {
  }

  lemma ActDb(w: World, c: Call, ok: bool)
    ensures Act(w, c, ok).0.db == if ok && c.Db? then Apply(w.db, w.now, c.write).0 else w.db
  {
  }

  lemma ActSound(w: World, op: Op, ok: bool)
    requires Sound(w.db, w.nextId) && OpOk(w.db, w.nextId, op) && Unspent(w.db, w.nextId, op)
    ensures var u := Act(w, CallOf(op, w.nextId), ok).0.db; Sound(u, w.nextId + 1) && Evolves(w.db, w.nextId, u)
  {
    var c := CallOf(op, w.nextId);
    ActDb(w, c, ok);
    if ok && c.Db? {
      CallJustified(w, op);
      ApplySound(w.db, w.nextId, w.now, c.write);
    }
  }

  /** After a cancel statement the row, if any, is canceled when a row was hit, and otherwise
      is final with the status recorded. */
  lemma CancelOk(w: World, id: Id, u: Tables, r: Reply)
    requires id < w.nextId && (u, r) == Apply(w.db, w.now, Single(CancelStatement({id})))
    ensures OpOk(u, w.nextId + 1, CancelReading(id, r != Rows(0), FindPickup(w.db, id)))
  {
  }

  lemma FailureOk(w: World, n: Id, op: Op)
    ensures OpOk(w.db, n, OnFailure(op))
  {
  }

  lemma PickupReadOk(w: World, op: Op, row: Option<Pickup>)
    requires Sound(w.db, w.nextId) && OpOk(w.db, w.nextId, op) && CallOf(op, w.nextId).ReadPickup?
    requires row == FindPickup(w.db, CallOf(op, w.nextId).pickup)
    ensures OpOk(w.db, w.nextId + 1, Resume(w, op, PickupRow(row)))
  {
  }

  lemma PaymentReadOk(w: World, op: Op, row: Option<Payment>)
    requires Sound(w.db, w.nextId) && OpOk(w.db, w.nextId, op) && op.ConfirmReading?
    requires row == FindPayment(w.db, op.id)
    ensures OpOk(w.db, w.nextId + 1, Resume(w, op, PaymentRow(row)))
  {
  }

  lemma FlagOk(w: World, op: Op)
    requires Sound(w.db, w.nextId) && op.CreateChecking?
    ensures OpOk(w.db, w.nextId + 1, Resume(w, op, Flag(HasPendingPayment(w.db, op.household))))
  {
  }

  /** Steps without a database call: the store, the clock, the counters. */
  lemma LocalOk(w: World, op: Op, ok: bool)
    requires OpOk(w.db, w.nextId, op)
    requires var c := CallOf(op, w.nextId); c.Nothing? || c.PutObject? || c.DeleteObject? || c.ReadExpired?
    requires Keyed(w.db, w.nextId)
    ensures OpOk(w.db, w.nextId + 1, Resume(w, op, Act(w, CallOf(op, w.nextId), ok).1))
  {
  }

  lemma ResumeReadOk(w: World, op: Op, ok: bool)
    requires Sound(w.db, w.nextId) && OpOk(w.db, w.nextId, op) && !CallOf(op, w.nextId).Db?
    ensures OpOk(w.db, w.nextId + 1, Resume(w, op, Act(w, CallOf(op, w.nextId), ok).1))
  {
    var c := CallOf(op, w.nextId);
    assert Keyed(w.db, w.nextId);
    hide Sound, OpOk, Keyed;
    match c
    case ReadPickup(id) =>
      if ok { PickupReadOk(w, op, FindPickup(w.db, id)); } else { FailureOk(w, w.nextId + 1, op); }
    case ReadPayment(id) =>
      if ok { PaymentReadOk(w, op, FindPayment(w.db, id)); } else { FailureOk(w, w.nextId + 1, op); }
    case ReadPending(_) =>
      if ok { FlagOk(w, op); } else { FailureOk(w, w.nextId + 1, op); }
    case _ => LocalOk(w, op, ok);
  }

  /** The program point an operation moves to is established by the step itself. */
  lemma ResumeOk(w: World, op: Op, ok: bool)
    requires Sound(w.db, w.nextId) && OpOk(w.db, w.nextId, op)
    ensures var (w1, a) := Act(w, CallOf(op, w.nextId), ok); OpOk(w1.db, w.nextId + 1, Resume(w, op, a))
  {
    var c := CallOf(op, w.nextId);
    ActDb(w, c, ok);
    if !c.Db? {
      ResumeReadOk(w, op, ok);
    } else if op.CancelUpdating? {
      var (u, r) := Apply(w.db, w.now, Single(CancelStatement({op.id})));
      CancelOk(w, op.id, u, r);
    } else {
      var next := Resume(w, op, Act(w, c, ok).1);
      assert next.Returned? || next.CreateCounting? || next.CompleteCounting? || next.PayCounting?
          || next.ConfirmCounting? || next.ConfirmCleaning? || next.CycleCounting?;
    }
  }

  // ---- the object store account ----

  /** Only a confirmation that goes through adds a proof, and only a cascade removes some. */
  lemma ProofsOfWrite(t: Tables, n: Id, now: Time, a: Write)
    requires Keyed(t, n) && Coherent(t) && Issued(a) && Generated(t, n, a)
    ensures var (u, r) := Apply(t, now, a);
      if a.Single? && a.statement.ConfirmPayment? && r == Rows(1) then Proofs(u) == Proofs(t) + {a.statement.proof}
      else if a.Single? && a.statement.DeleteHousehold? then Proofs(u) <= Proofs(t)
      else Proofs(u) == Proofs(t)
  {
    var (u, r) := Apply(t, now, a);
    if a.CompleteTx? {
      CompleteTxCases(t, now, a);
    }
    forall i | i in u.payments && u.payments[i].proof.Some?
      ensures (i in t.payments && t.payments[i].proof == u.payments[i].proof)
           || (a.Single? && a.statement.ConfirmPayment? && r == Rows(1)
               && u.payments[i].proof.value == a.statement.proof)
    {
    }
    if !(a.Single? && a.statement.DeleteHousehold?) {
      forall i | i in t.payments && t.payments[i].proof.Some?
        ensures i in u.payments && u.payments[i].proof == t.payments[i].proof
      {
      }
    }
    if a.Single? && a.statement.ConfirmPayment? && r == Rows(1) {
      assert u.payments[a.statement.id].proof == Some(a.statement.proof);
    }
  }

  /** Replacing one operation moves at most its own key in or out of the held set. */
  lemma HeldUpdate(w: World, o: OpId, op: Op, w1: World)
    requires KeysDistinct(w) && o in w.ops && w1.ops == w.ops[o := op]
    requires KeyOf(op).Some? && KeyOf(w.ops[o]).Some? ==> KeyOf(op) == KeyOf(w.ops[o])
    ensures var before := if Holds(w.ops[o]) then {KeyOf(w.ops[o]).value} else {};
      var after := if Holds(op) then {KeyOf(op).value} else {};
      Held(w1) == Held(w) - before + after
  {
    var before := if Holds(w.ops[o]) then {KeyOf(w.ops[o]).value} else {};
    var after := if Holds(op) then {KeyOf(op).value} else {};
    forall k | k in Held(w) && k !in before ensures k in Held(w1) {
      var p :| p in w.ops && Holds(w.ops[p]) && KeyOf(w.ops[p]).value == k;
      assert p != o && w1.ops[p] == w.ops[p];
    }
    forall k | k in Held(w1) && k !in after ensures k in Held(w) && k !in before {
      var p :| p in w1.ops && Holds(w1.ops[p]) && KeyOf(w1.ops[p]).value == k;
      assert p != o && w1.ops[p] == w.ops[p];
    }
    if Holds(op) {
      assert w1.ops[o] == op;
    }
  }

  /** The parts of a step: the call, the new program point, the next uuid. */
  lemma StepParts(w: World, o: OpId, ok: bool)
    requires o in w.ops
    ensures var (w1, a) := Act(w, CallOf(w.ops[o], w.nextId), ok);
      var v := StepOp(w, o, ok);
      && v.db == w1.db && v.objects == w1.objects && v.leaked == w1.leaked && v.erased == w1.erased
      && v.ops == w.ops[o := Resume(w, w.ops[o], a)] && v.nextId == w.nextId + 1 && v.now == w.now
  {
  }

  /** The tables after a step, and the proofs they name. */
  lemma StepProofs(w: World, o: OpId, ok: bool)
    requires Sound(w.db, w.nextId) && OpsOk(w) && Drawn(w) && o in w.ops
    ensures var op := w.ops[o]; var v := StepOp(w, o, ok);
      if op.ConfirmUpdating? && v.ops[o].ConfirmCounting? then
        Proofs(v.db) == Proofs(w.db) + {op.key} && v.erased == w.erased
      else Proofs(v.db) == Proofs(w.db) && v.erased == w.erased
  {
    hide StepOp, Proofs, Keyed, Coherent, Linked, OnePerPickup, OnePending, Priced, Settled, OpOk;
    var op := w.ops[o];
    var c := CallOf(op, w.nextId);
    ActDb(w, c, ok);
    StepParts(w, o, ok);
    if ok && c.Db? {
      CallJustified(w, op);
      ProofsOfWrite(w.db, w.nextId, w.now, c.write);
    }
  }

  /** A step that is not about a proof object may only pick a key for a later upload. */
  lemma OtherStepKeys(w: World, o: OpId, ok: bool)
    requires o in w.ops && KeyOf(w.ops[o]).None?
    ensures var v := StepOp(w, o, ok);
      && v.objects == w.objects && v.leaked == w.leaked
      && (KeyOf(v.ops[o]).Some? ==> v.ops[o].ConfirmUploading? && v.ops[o].key.nonce == w.nextId)
  {
  }

  /** How a step of Confirm moves its key: into the store, on to the payment, or out again. */
  ghost predicate KeyMoved(w: World, o: OpId, ok: bool, v: World)
    requires o in w.ops && o in v.ops && KeyOf(w.ops[o]).Some?
  {
    var op := w.ops[o]; var k := KeyOf(op).value; var next := v.ops[o];
    && (KeyOf(next).Some? ==> KeyOf(next).value == k && Holds(next))
    && v.objects == (if op.ConfirmUploading? && ok then w.objects + {k}
                     else if op.ConfirmCleaning? && ok then w.objects - {k} else w.objects)
    && v.leaked == (if op.ConfirmCleaning? && !ok then w.leaked + {k} else w.leaked)
    && Holds(next) == (match op
                       case ConfirmUploading(_, _, _) => ok
                       case ConfirmStamping(_, _, _) => true
                       case ConfirmUpdating(_, _, _, _) => !next.ConfirmCounting?
                       case _ => false)
  }

  lemma ProofStepKeys(w: World, o: OpId, ok: bool)
    requires o in w.ops && KeyOf(w.ops[o]).Some?
    ensures KeyMoved(w, o, ok, StepOp(w, o, ok))
  {
  }

  lemma OtherStepAccounted(w: World, o: OpId, v: World)
    requires Accounted(w) && KeysDistinct(w) && o in w.ops && KeyOf(w.ops[o]).None?
    requires o in v.ops && v.ops == w.ops[o := v.ops[o]] && v.nextId == w.nextId + 1
    requires v.objects == w.objects && v.leaked == w.leaked && v.erased == w.erased && Proofs(v.db) == Proofs(w.db)
    requires KeyOf(v.ops[o]).Some? ==> v.ops[o].ConfirmUploading? && v.ops[o].key.nonce == w.nextId
    ensures Accounted(v) && KeysDistinct(v)
  {
    HeldUpdate(w, o, v.ops[o], v);
  }

  lemma ProofStepAccounted(w: World, o: OpId, ok: bool, v: World)
    requires Accounted(w) && KeysDistinct(w) && o in w.ops && KeyOf(w.ops[o]).Some?
    requires o in v.ops && v.ops == w.ops[o := v.ops[o]] && KeyMoved(w, o, ok, v) && v.erased == w.erased
    requires Proofs(v.db) ==
             if w.ops[o].ConfirmUpdating? && v.ops[o].ConfirmCounting? then Proofs(w.db) + {w.ops[o].key}
             else Proofs(w.db)
    ensures Accounted(v)
  {
    hide Proofs;
    HeldUpdate(w, o, v.ops[o], v);
    var k := KeyOf(w.ops[o]).value;
    if Holds(w.ops[o]) {
      assert k in Held(w);
    }
  }

  lemma ProofStepDistinct(w: World, o: OpId, ok: bool)
    requires KeysDistinct(w) && o in w.ops && KeyOf(w.ops[o]).Some?
    ensures KeysDistinct(StepOp(w, o, ok))
  {
    hide StepOp;
    var v := StepOp(w, o, ok);
    StepParts(w, o, ok);
    ProofStepKeys(w, o, ok);
    forall p | p in v.ops && v.ops[p].ConfirmUploading? ensures v.ops[p].key !in v.objects {
      assert p != o && w.ops[p] == v.ops[p] && KeyOf(w.ops[p]) != KeyOf(w.ops[o]);
    }
  }

  lemma StepAccounted(w: World, o: OpId, ok: bool)
    requires Inv(w) && o in w.ops
    ensures Accounted(StepOp(w, o, ok)) && KeysDistinct(StepOp(w, o, ok))
  {
    if KeyOf(w.ops[o]).Some? {
      StepParts(w, o, ok);
      StepProofs(w, o, ok);
      ProofStepKeys(w, o, ok);
      ProofStepAccounted(w, o, ok, StepOp(w, o, ok));
      ProofStepDistinct(w, o, ok);
    } else {
      StepParts(w, o, ok);
      StepProofs(w, o, ok);
      OtherStepKeys(w, o, ok);
      OtherStepAccounted(w, o, StepOp(w, o, ok));
    }
  }

  lemma OpsStable(w: World, u: Tables, m: Id)
    requires Keyed(w.db, w.nextId) && OpsOk(w) && Evolves(w.db, w.nextId, u) && w.nextId <= m
    ensures forall p | p in w.ops :: OpOk(u, m, w.ops[p])
  {
    forall p | p in w.ops ensures OpOk(u, m, w.ops[p]) {
      OpStable(w.db, w.nextId, u, m, w.ops[p]);
    }
  }

  /** A write spends no id but the one it inserts a payment with. */
  lemma SpentGrows(t: Tables, now: Time, a: Write)
    ensures Apply(t, now, a).0.spent <= t.spent + if a.CompleteTx? then {a.payment}
                                                 else if a.statement.InsertPayment? then {a.statement.id} else {}
  {
  }

  lemma StepDrawn(w: World, o: OpId, ok: bool)
    requires Keyed(w.db, w.nextId) && Drawn(w) && o in w.ops
    ensures Drawn(StepOp(w, o, ok))
  {
    var op := w.ops[o];
    var c := CallOf(op, w.nextId);
    var v := StepOp(w, o, ok);
    StepParts(w, o, ok);
    ActDb(w, c, ok);
    if c.Db? {
      SpentGrows(w.db, w.now, c.write);
    }
    assert v.ops[o].CompleteWriting? ==> op.CompleteBeginning? && v.ops[o].payment == w.nextId;
    hide StepOp, Apply;
  }

  lemma StepOps(w: World, o: OpId, ok: bool)
    requires Sound(w.db, w.nextId) && OpsOk(w) && Drawn(w) && o in w.ops
    ensures var v := StepOp(w, o, ok); Sound(v.db, v.nextId) && OpsOk(v) && Evolves(w.db, w.nextId, v.db)
  {
    var v := StepOp(w, o, ok);
    StepParts(w, o, ok);
    ActSound(w, w.ops[o], ok);
    ResumeOk(w, w.ops[o], ok);
    OpsStable(w, v.db, v.nextId);
  }

  // ---- events and runs ----

  lemma LaterIds(t: Tables, n: Id, m: Id)
    requires Sound(t, n) && n <= m
    ensures Sound(t, m) && Evolves(t, n, t)
  {
  }

  /** Losing proofs to a cascade moves them to the ledger of orphans. */
  lemma LoseProofs(w: World, u: Tables, m: Id)
    requires Accounted(w) && KeysDistinct(w) && Proofs(u) <= Proofs(w.db) && w.nextId <= m
    ensures Accounted(WithDb(w, u).(nextId := m)) && KeysDistinct(WithDb(w, u).(nextId := m))
  {
  }

  /** A household is added or removed by one statement of its own. */
  lemma HouseholdInv(w: World, a: Write, m: Id)
    requires Inv(w) && a.Single? && (a.statement.InsertHousehold? || a.statement.DeleteHousehold?)
    requires Generated(w.db, w.nextId, a) && w.nextId < m
    ensures var u := Apply(w.db, w.now, a).0; Inv(WithDb(w, u).(nextId := m)) && Evolves(w.db, w.nextId, u)
  {
    var u := Apply(w.db, w.now, a).0;
    ApplySound(w.db, w.nextId, w.now, a);
    LaterIds(u, w.nextId + 1, m);
    ProofsOfWrite(w.db, w.nextId, w.now, a);
    SpentGrows(w.db, w.now, a);
    OpsStable(w, u, m);
    LoseProofs(w, u, m);
  }

  lemma StartAccounted(w: World, o: OpId, r: Request)
    requires Accounted(w) && KeysDistinct(w) && o !in w.ops
    ensures Accounted(StartOp(w, o, r)) && KeysDistinct(StartOp(w, o, r))
  {
    var v := StartOp(w, o, r);
    assert KeyOf(v.ops[o]).None?;
    assert forall p | p in w.ops :: p in v.ops && v.ops[p] == w.ops[p];
    assert Held(v) == Held(w);
  }

  lemma StartInv(w: World, o: OpId, r: Request)
    requires Inv(w) && o !in w.ops
    ensures Inv(StartOp(w, o, r)) && Evolves(w.db, w.nextId, StartOp(w, o, r).db)
  {
    var v := StartOp(w, o, r);
    LaterIds(w.db, w.nextId, v.nextId);
    OpsStable(w, w.db, v.nextId);
    StartOk(w, o, r);
    StartAccounted(w, o, r);
    hide Accounted, KeysDistinct, Sound, OpOk, Evolves;
  }

  lemma StartOk(w: World, o: OpId, r: Request)
    ensures var v := StartOp(w, o, r);
      w.nextId <= v.nextId && OpOk(v.db, v.nextId, v.ops[o]) && !v.ops[o].CompleteWriting?
  {
  }

  lemma TickInv(w: World, elapsed: nat)
    requires Inv(w)
    ensures Inv(w.(now := w.now + elapsed)) && Evolves(w.db, w.nextId, w.db)
  {
  }

  lemma StepInv(w: World, o: OpId, ok: bool)
    requires Inv(w) && o in w.ops
    ensures Inv(StepOp(w, o, ok)) && Evolves(w.db, w.nextId, StepOp(w, o, ok).db)
  {
    StepOps(w, o, ok);
    StepDrawn(w, o, ok);
    StepAccounted(w, o, ok);
  }

  lemma HouseholdEventInv(w: World, e: Event)
    requires Inv(w) && (e.AddHousehold? || e.RemoveHousehold?)
    ensures var v := Next(w, e); Inv(v) && Evolves(w.db, w.nextId, v.db) && w.nextId <= v.nextId
  {
    hide Inv, Evolves;
    match e
    case AddHousehold(owner, address) =>
      HouseholdInv(w, Single(InsertHousehold(w.nextId, owner, address)), w.nextId + 1);
    case RemoveHousehold(household) =>
      HouseholdInv(w, Single(DeleteHousehold(household)), Max(w.nextId, household) + 1);
  }

  lemma StepEventInv(w: World, o: OpId, ok: bool)
    requires Inv(w) && o in w.ops
    ensures var v := Next(w, Step(o, ok)); Inv(v) && Evolves(w.db, w.nextId, v.db) && w.nextId <= v.nextId
  {
    hide Inv, Evolves;
    StepParts(w, o, ok);
    StepInv(w, o, ok);
    hide StepOp;
  }

  /** Every event keeps the invariant and lets the rows evolve. */
  lemma NextInv(w: World, e: Event)
    requires Inv(w)
    ensures var v := Next(w, e); Inv(v) && Evolves(w.db, w.nextId, v.db) && w.nextId <= v.nextId
  {
    LaterIds(w.db, w.nextId, w.nextId);
    hide Inv, Evolves, StepOp;
    match e
    case Tick(elapsed) => TickInv(w, elapsed);
    case AddHousehold(_, _) => HouseholdEventInv(w, e);
    case RemoveHousehold(_) => HouseholdEventInv(w, e);
    case Start(o, r) => if o !in w.ops { StartInv(w, o, r); }
    case Step(o, ok) => if o in w.ops { StepEventInv(w, o, ok); }
  }

  lemma {:induction false} RunInv(w: World, es: seq<Event>)
    requires Inv(w)
    ensures var v := Run(w, es); Inv(v) && Evolves(w.db, w.nextId, v.db) && w.nextId <= v.nextId
  {
    if es != [] {
      var before := es[..|es| - 1];
      RunInv(w, before);
      NextInv(Run(w, before), es[|es| - 1]);
      EvolvesTrans(w.db, w.nextId, Run(w, before).db, Run(w, before).nextId, Run(w, es).db);
    }
  }

  /** Every reachable state satisfies the invariant, whatever was started, interleaved,
      delayed or failed on the way. */
  lemma Reachable(now: Time, es: seq<Event>)
    ensures Inv(Run(Init(now), es))
  {
    RunInv(Init(now), es);
  }
}

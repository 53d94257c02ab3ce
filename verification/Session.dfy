/** Complete's transaction as code: begin, two statements, commit, and the deferred rollback,
    on a store where other transactions and statements run in between. */
module Session {
  import opened Domain
  import opened Sql
  import opened Transaction

  /** No action of `actions` is one of transaction `x`. */
  predicate Foreign(actions: seq<Action>, x: TxId) {
    forall k | 0 <= k < |actions| :: !Of(actions[k], x)
  }

  lemma {:induction false} RunsConcat(s: Store, a: seq<Action>, b: seq<Action>)
    ensures RunAll(s, a + b) == RunAll(RunAll(s, a), b)
  {
    if b == [] {
      assert a + b == a;
    } else {
      var n := |b| - 1;
      assert (a + b)[..|a + b| - 1] == a + b[..n];
      RunsConcat(s, a, b[..n]);
    }
  }

  ghost predicate Leads(s: Store, u: Store) {
    exists actions :: u == RunAll(s, actions)
  }

  lemma NothingDone(s: Store, x: TxId)
    ensures RunAll(s, []) == s && Replies(s, [], x) == []
  {
  }

  lemma LeadsToItself(s: Store)
    ensures Leads(s, s)
  {
    assert s == RunAll(s, []);
  }

  lemma LeadsOn(s: Store, u: Store, a: Action)
    requires Leads(s, u)
    ensures Leads(s, Act(u, a))
  {
    var actions :| u == RunAll(s, actions);
    assert [a][..0] == [] && RunAll(u, [a]) == Act(u, a);
    RunsConcat(s, actions, [a]);
  }

  /** What Complete returns for the result its transaction closed with. */
  function ErrorOf(result: Option<Reply>): Option<Error> {
    match result
    case None => Some(Internal)
    case Some(Rows(n)) => if n == 0 then Some(Conflict) else None
    case Some(Violated(v)) => Some(PaymentCreateError(v))
  }

  /** The same for the replies its atomic writes gave: one, or none after an internal failure. */
  function ErrorFor(replies: seq<Reply>): Option<Error> {
    if |replies| == 1 then ErrorOf(Some(replies[0])) else Some(Internal)
  }

  /** The transaction `u` is still `tx`, for the same pickup, household and amount. */
  predicate SameTx(tx: Tx, u: Tx) {
    u == tx.(phase := u.phase)
  }

  class Database {
    var store: Store

    /** Other transactions and statements run, and time passes. Callers may rely on the contract
        alone, which allows every such run; doing nothing is one of them. */
    method Others(ghost x: TxId, ghost s0: Store)
      requires StoreOk(store) && Leads(s0, store)
      modifies this
      ensures StoreOk(store) && Leads(s0, store)
      ensures exists actions :: Foreign(actions, x) && store == RunAll(old(store), actions)
      ensures x in store.txs <==> x in old(store).txs
      ensures x in store.txs ==> store.txs[x] == old(store).txs[x]
    {
      assert Foreign([], x) && store == RunAll(store, []);
    }

    method Perform(a: Action, ghost s0: Store)
      requires StoreOk(store) && Leads(s0, store)
      modifies this
      ensures StoreOk(store) && Leads(s0, store) && store == Act(old(store), a)
    {
      ActOk(store, a);
      LeadsOn(s0, store, a);
      store := Act(store, a);
    }

    /** UpdateStatus(id, completed, tx): fails if the row is not scheduled any more. A call that
        is still waiting for the row lock when it is given up fails internally. */
    method UpdateStatus(x: TxId, ghost s0: Store) returns (err: Option<Error>)
      requires StoreOk(store) && Leads(s0, store) && x in store.txs && store.txs[x].phase.Begun?
      modifies this
      ensures StoreOk(store) && Leads(s0, store) && store.t == old(store).t
      ensures x in store.txs && SameTx(old(store).txs[x], store.txs[x])
      ensures match err
              case None => store.txs[x].phase.Updated?
              case Some(e) => store.txs[x].phase.Broken? && ErrorOf(store.txs[x].phase.why) == Some(e)
      ensures var i := old(store).txs[x].pickup; var t := old(store).t;
              err == Some(Internal)
              || err == if i in t.pickups && t.pickups[i].status == Scheduled then None else Some(Conflict)
    {
      var ok: bool := *;
      if !ok || Locked(store, store.txs[x].pickup) {
        Perform(Fault(x), s0);
        return Some(Internal);
      }
      Perform(Update(x), s0);
      if store.txs[x].phase.Broken? {
        return Some(Conflict);
      }
      return None;
    }

    /** CreateWithTx(tx, payment). */
    method CreateWithTx(x: TxId, ghost s0: Store) returns (err: Option<Error>)
      requires StoreOk(store) && Leads(s0, store) && x in store.txs && store.txs[x].phase.Updated?
      modifies this
      ensures StoreOk(store) && Leads(s0, store) && store.t == old(store).t
      ensures x in store.txs && SameTx(old(store).txs[x], store.txs[x])
      ensures match err
              case None => store.txs[x].phase.Inserted?
              case Some(e) => store.txs[x].phase.Broken? && ErrorOf(store.txs[x].phase.why) == Some(e)
      ensures var tx := old(store).txs[x];
              var bad := PaymentViolation(old(store).t, tx.household, tx.pickup, tx.amount);
              err == Some(Internal)
              || err == if bad.Some? then Some(PaymentCreateError(bad.value)) else None
    {
      var ok: bool := *;
      if !ok || Reserved(store, store.txs[x].pickup, store.txs[x].household) {
        Perform(Fault(x), s0);
        return Some(Internal);
      }
      Perform(Insert(x), s0);
      match store.txs[x].phase {
        case Broken(Some(Violated(v))) => return Some(PaymentCreateError(v));
        case _ => return None;
      }
    }

    method Commit(x: TxId, ghost s0: Store) returns (err: Option<Error>)
      requires StoreOk(store) && Leads(s0, store) && x in store.txs && store.txs[x].phase.Inserted?
      modifies this
      ensures StoreOk(store) && Leads(s0, store)
      ensures x in store.txs && SameTx(old(store).txs[x], store.txs[x])
      ensures match err
              case None =>
                && store.txs[x].phase == Closed(Some(Rows(1)))
                && store.t == OnCommit(old(store).t, old(store).txs[x])
              case Some(e) =>
                e == Internal && store.txs[x].phase == Broken(None) && store.t == old(store).t
    {
      var ok: bool := *;
      if !ok {
        Perform(Fault(x), s0);
        return Some(Internal);
      }
      Perform(Action.Commit(x), s0);
      return None;
    }

    /** The statements between begin and the deferred rollback. */
    method Statements(x: TxId, ghost s0: Store) returns (err: Option<Error>)
      requires StoreOk(store) && Leads(s0, store) && x in store.txs && store.txs[x].phase.Begun?
      modifies this
      ensures StoreOk(store) && Leads(s0, store)
      ensures x in store.txs && SameTx(old(store).txs[x], store.txs[x])
      ensures match err
              case None => store.txs[x].phase == Closed(Some(Rows(1)))
              case Some(e) => store.txs[x].phase.Broken? && ErrorOf(store.txs[x].phase.why) == Some(e)
    {
      Others(x, s0);
      err := UpdateStatus(x, s0);
      if err.Some? {
        return err;
      }
      Others(x, s0);
      err := CreateWithTx(x, s0);
      if err.Some? {
        return err;
      }
      Others(x, s0);
      err := Commit(x, s0);
    }

    /** Complete past its status read: on every return the transaction, which is the one for this
        pickup, household and amount, is closed, and the error is the one its atomic write was
        answered with. */
    method Complete(x: TxId, pickup: Id, household: Id, amount: Money) returns (err: Option<Error>)
      requires StoreOk(store) && x !in store.txs
      modifies this
      ensures StoreOk(store)
      ensures x in store.txs ==>
                var tx := store.txs[x]; tx.pickup == pickup && tx.household == household && tx.amount == amount
      ensures x in store.txs ==> store.txs[x].phase.Closed? && err == ErrorOf(store.txs[x].phase.result)
      ensures x !in store.txs ==> err == Some(Internal)
      ensures exists actions ::
                && store == RunAll(old(store), actions)
                && err == ErrorFor(Replies(old(store), actions, x))
    {
      ghost var s0 := store;
      LeadsToItself(s0);
      NothingDone(s0, x);
      hide StoreOk, RunAll, Replies;
      var ok: bool := *;
      if !ok {
        return Some(Internal);
      }
      Perform(Begin(x, pickup, household, amount), s0);
      err := Statements(x, s0);
      Others(x, s0);
      if err.Some? {
        Perform(Rollback(x), s0);
      }
      ghost var actions :| store == RunAll(s0, actions);
      OneReply(s0, actions, x);
    }
  }
}

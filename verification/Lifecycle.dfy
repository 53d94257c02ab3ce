/** Status changes over whole runs: how often a pickup can change, and all pickups together. */
module Lifecycle {
  import opened Domain
  import opened Sql
  import opened Integrity
  import opened Machine
  import opened Invariant
  import opened Sums

  // ---- every step keeps or raises the status rank ----

  predicate Changed(t: Tables, u: Tables, i: Id) {
    i in t.pickups && i in u.pickups && t.pickups[i].status != u.pickups[i].status
  }

  /** How many events of a run moved pickup `i` to a status of rank `k`. */
  ghost function Entries(w: World, es: seq<Event>, i: Id, k: nat): nat {
    if es == [] then 0
    else
      var v := Run(w, es[..|es| - 1]);
      var u := Run(w, es);
      Entries(w, es[..|es| - 1], i, k)
        + if Changed(v.db, u.db, i) && Rank(u.db.pickups[i].status) == k then 1 else 0
  }

  ghost predicate Reached(w: World, i: Id, k: nat) {
    i < w.nextId && (i in w.db.pickups ==> k <= Rank(w.db.pickups[i].status))
  }

  /** A status is entered at most once: the one that counts is then reached for good. */
  lemma {:induction false} EnteredOnce(w: World, es: seq<Event>, i: Id, k: nat)
    requires Inv(w) && 0 < k
    ensures Entries(w, es, i, k)
         <= if Reached(Run(w, es), i, k) && !(i in w.db.pickups && Reached(w, i, k)) then 1 else 0
  {
    if es != [] {
      var before := es[..|es| - 1];
      EnteredOnce(w, before, i, k);
      RunInv(w, before);
      RunInv(w, es);
      NextInv(Run(w, before), es[|es| - 1]);
    }
  }

  /** However many callers race for a pickup, at most one Schedule takes effect, and at most
      one of Complete, Cancel and the worker's cancel. */
  lemma AtMostTwoChanges(w: World, es: seq<Event>, i: Id)
    requires Inv(w)
    ensures Entries(w, es, i, 1) <= 1 && Entries(w, es, i, 2) <= 1 && Entries(w, es, i, 0) == 0
    ensures i in w.db.pickups ==>
              Entries(w, es, i, 1) + Entries(w, es, i, 2) <= 2 - Rank(w.db.pickups[i].status)
  {
    EnteredOnce(w, es, i, 1);
    EnteredOnce(w, es, i, 2);
    NeverBack(w, es, i);
  }

  lemma {:induction false} NeverBack(w: World, es: seq<Event>, i: Id)
    requires Inv(w)
    ensures Entries(w, es, i, 0) == 0
  {
    hide Inv, Next;
    if es != [] {
      var before := es[..|es| - 1];
      NeverBack(w, before, i);
      RunInv(w, before);
      ChangesRise(Run(w, before), es[|es| - 1], i);
    }
  }

  lemma ChangesRise(w: World, e: Event, i: Id)
    requires Inv(w)
    ensures var u := Next(w, e).db; Changed(w.db, u, i) ==> Rank(w.db.pickups[i].status) < Rank(u.pickups[i].status)
  {
    NextInv(w, e);
    var u := Next(w, e).db;
    if Changed(w.db, u, i) {
      OldRow(w, i);
      hide Inv, Next;
    }
  }

  lemma OldRow(w: World, i: Id)
    requires Inv(w) && i in w.db.pickups
    ensures i < w.nextId
  {
  }

  // ---- all pickups together ----

  ghost function ChangedRows(t: Tables, u: Tables): set<Id> {
    set i | i in t.pickups && Changed(t, u, i)
  }

  ghost function TotalChanges(w: World, es: seq<Event>): nat {
    if es == [] then 0
    else TotalChanges(w, es[..|es| - 1]) + |ChangedRows(Run(w, es[..|es| - 1]).db, Run(w, es).db)|
  }

  ghost function TotalCreated(w: World, es: seq<Event>): nat {
    if es == [] then 0
    else TotalCreated(w, es[..|es| - 1])
         + |Run(w, es).db.pickups.Keys - Run(w, es[..|es| - 1]).db.pickups.Keys|
  }

  /** Status changes a row can still go through. */
  ghost function Room(t: Tables): Id -> int {
    i => if i in t.pickups then 2 - Rank(t.pickups[i].status) else 0
  }

  lemma RoomKept(t: Tables, n: Id, u: Tables, kept: set<Id>)
    requires Evolves(t, n, u) && Keyed(t, n) && kept == u.pickups.Keys * t.pickups.Keys
    ensures Sum(kept, Room(u)) + |ChangedRows(t, u)| <= Sum(kept, Room(t))
  {
    var changed := ChangedRows(t, u);
    forall i | i in kept ensures Room(u)(i) + (if i in changed then 1 else 0) <= Room(t)(i) {
      assert PickupEvolves(t.pickups[i], u.pickups[i]);
    }
    SumDrop(kept, Room(u), Room(t), changed);
  }

  lemma RoomAdded(u: Tables, added: set<Id>)
    ensures Sum(added, Room(u)) <= 2 * |added|
  {
  }

  lemma RoomShrinks(t: Tables, n: Id, u: Tables)
    requires Evolves(t, n, u) && Keyed(t, n)
    ensures Sum(u.pickups.Keys, Room(u)) + |ChangedRows(t, u)|
         <= Sum(t.pickups.Keys, Room(t)) + 2 * |u.pickups.Keys - t.pickups.Keys|
  {
    var s, r := u.pickups.Keys, t.pickups.Keys;
    RoomKept(t, n, u, s * r);
    RoomAdded(u, s - r);
    RoomLeft(t, r - s);
    SumOverlap(s, r, Room(u), Room(t));
  }

  lemma RoomLeft(t: Tables, s: set<Id>)
    ensures 0 <= Sum(s, Room(t))
  {
  }

  lemma {:induction false} ChangesFitRoom(w: World, es: seq<Event>)
    requires Inv(w)
    ensures TotalChanges(w, es) + Sum(Run(w, es).db.pickups.Keys, Room(Run(w, es).db))
         <= Sum(w.db.pickups.Keys, Room(w.db)) + 2 * TotalCreated(w, es)
  {
    if es != [] {
      var before := es[..|es| - 1];
      ChangesFitRoom(w, before);
      RunInv(w, before);
      NextInv(Run(w, before), es[|es| - 1]);
      RoomShrinks(Run(w, before).db, Run(w, before).nextId, Run(w, es).db);
    }
  }

  /** Over any run from the empty service, all status changes together are at most twice the
      pickups ever created. */
  lemma TotalChangesBounded(now: Time, es: seq<Event>)
    ensures TotalChanges(Init(now), es) <= 2 * TotalCreated(Init(now), es)
  {
    var v := Run(Init(now), es);
    ChangesFitRoom(Init(now), es);
    RoomLeft(v.db, v.db.pickups.Keys);
    NoRoomYet(now);
  }

  lemma NoRoomYet(now: Time)
    ensures Inv(Init(now)) && Sum(Init(now).db.pickups.Keys, Room(Init(now).db)) == 0
  {
  }
}

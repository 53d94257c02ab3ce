/** The two report folds over GROUP BY results, against row-level counts and sums. */
module Reports {
  import opened Domain
  import opened Sql
  import opened Sums

  // ---- pickups by type and status ----

  datatype PickupGroup = PickupGroup(kind: WasteType, status: PickupStatus, count: nat)

  datatype TypeSummary = TypeSummary(kind: WasteType, total: nat, byStatus: map<PickupStatus, nat>)

  function OfKind(t: Tables, kind: WasteType): set<Id> {
    set i | i in t.pickups && t.pickups[i].kind == kind
  }

  function InGroup(t: Tables, kind: WasteType, status: PickupStatus): set<Id> {
    set i | i in t.pickups && t.pickups[i].kind == kind && t.pickups[i].status == status
  }

  ghost predicate Grouped(rows: seq<PickupGroup>, kind: WasteType, status: PickupStatus) {
    exists r :: r in rows && r.kind == kind && r.status == status
  }

  /** `rows` answers SELECT type, status, COUNT(*) ... GROUP BY type, status, in any order. */
  ghost predicate GroupsPickups(t: Tables, rows: seq<PickupGroup>) {
    && OneRowPerGroup(rows)
    && (forall r | r in rows :: r.count == |InGroup(t, r.kind, r.status)|)
    && (forall i | i in t.pickups :: Grouped(rows, t.pickups[i].kind, t.pickups[i].status))
    && (forall r | r in rows :: InGroup(t, r.kind, r.status) != {})
  }

  /** Total and per-status counts that the fold has accumulated for one type. */
  function TotalOf(rows: seq<PickupGroup>, kind: WasteType): nat {
    if rows == [] then 0
    else TotalOf(rows[..|rows| - 1], kind) + if rows[|rows| - 1].kind == kind then rows[|rows| - 1].count else 0
  }

  function StatusesOf(rows: seq<PickupGroup>, kind: WasteType): map<PickupStatus, nat> {
    if rows == [] then map[]
    else
      var r := rows[|rows| - 1];
      var m := StatusesOf(rows[..|rows| - 1], kind);
      if r.kind == kind then m[r.status := r.count] else m
  }

  function KindsOf(rows: seq<PickupGroup>): set<WasteType> {
    set r | r in rows :: r.kind
  }

  /** The fold over the grouped rows, and the slice read off its index in any order. */
  method WasteSummary(rows: seq<PickupGroup>) returns (result: seq<TypeSummary>)
    ensures forall k | 0 <= k < |result| :: var kind := result[k].kind;
              kind in KindsOf(rows) && result[k] == TypeSummary(kind, TotalOf(rows, kind), StatusesOf(rows, kind))
    ensures forall kind | kind in KindsOf(rows) :: exists k | 0 <= k < |result| :: result[k].kind == kind
    ensures forall j, k | 0 <= j < k < |result| :: result[j].kind != result[k].kind
  {
    var index: map<WasteType, TypeSummary> := map[];
    for i := 0 to |rows|
      invariant index.Keys == KindsOf(rows[..i])
      invariant forall kind | kind in index ::
                  index[kind] == TypeSummary(kind, TotalOf(rows[..i], kind), StatusesOf(rows[..i], kind))
    {
      var row := rows[i];
      assert rows[..i + 1][..i] == rows[..i];
      if row.kind !in index {
        NoRowsYet(rows[..i], row.kind);
        index := index[row.kind := TypeSummary(row.kind, 0, map[])];
      }
      var s := index[row.kind];
      index := index[row.kind := TypeSummary(s.kind, s.total + row.count, s.byStatus[row.status := row.count])];
      assert KindsOf(rows[..i + 1]) == KindsOf(rows[..i]) + {row.kind};
    }
    assert rows[..|rows|] == rows;
    result := [];
    var todo := index.Keys;
    while todo != {}
      invariant todo <= index.Keys
      invariant forall k | 0 <= k < |result| ::
                  result[k].kind in index && result[k].kind !in todo && result[k] == index[result[k].kind]
      invariant forall kind | kind in index && kind !in todo :: exists k | 0 <= k < |result| :: result[k].kind == kind
      invariant forall j, k | 0 <= j < k < |result| :: result[j].kind != result[k].kind
      decreases todo
    {
      var kind :| kind in todo;
      ghost var before := result;
      result := result + [index[kind]];
      todo := todo - {kind};
      assert result[|before|].kind == kind;
      assert forall k | 0 <= k < |before| :: result[k] == before[k];
    }
  }

  lemma {:induction false} NoRowsYet(rows: seq<PickupGroup>, kind: WasteType)
    requires kind !in KindsOf(rows)
    ensures TotalOf(rows, kind) == 0 && StatusesOf(rows, kind) == map[]
  {
    if rows != [] {
      assert rows[|rows| - 1] in rows;
      assert KindsOf(rows[..|rows| - 1]) <= KindsOf(rows);
      NoRowsYet(rows[..|rows| - 1], kind);
    }
  }

  // ---- the summary is about the rows of the table ----

  ghost function Covered(t: Tables, rows: seq<PickupGroup>, kind: WasteType): set<Id> {
    set i | i in t.pickups && t.pickups[i].kind == kind && Grouped(rows, kind, t.pickups[i].status)
  }

  ghost predicate OneRowPerGroup(rows: seq<PickupGroup>) {
    forall i, j | 0 <= i < j < |rows| :: rows[i].kind != rows[j].kind || rows[i].status != rows[j].status
  }

  lemma LastGroupIsNew(rows: seq<PickupGroup>, n: nat)
    requires OneRowPerGroup(rows) && n < |rows|
    ensures !Grouped(rows[..n], rows[n].kind, rows[n].status)
  {
  }

  lemma GroupedSnoc(rows: seq<PickupGroup>, r: PickupGroup, kind: WasteType, s: PickupStatus)
    ensures Grouped(rows + [r], kind, s) <==> Grouped(rows, kind, s) || (r.kind == kind && r.status == s)
  {
  }

  lemma UnionCount(a: set<Id>, b: set<Id>)
    requires a !! b
    ensures |a + b| == |a| + |b|
  {
  }

  lemma CoveredSnoc(t: Tables, rows: seq<PickupGroup>, r: PickupGroup, kind: WasteType)
    requires !Grouped(rows, r.kind, r.status)
    ensures |Covered(t, rows + [r], kind)|
         == |Covered(t, rows, kind)| + if r.kind == kind then |InGroup(t, kind, r.status)| else 0
  {
    hide Grouped;
    var group := if r.kind == kind then InGroup(t, kind, r.status) else {};
    var covered := Covered(t, rows, kind);
    forall i ensures i in Covered(t, rows + [r], kind) <==> i in covered || i in group {
      if i in t.pickups {
        GroupedSnoc(rows, r, kind, t.pickups[i].status);
      }
    }
    assert Covered(t, rows + [r], kind) == covered + group;
    UnionCount(covered, group);
  }

  /** Any prefix of the groups accounts for the rows in them, once each. */
  lemma {:induction false} TotalCounts(t: Tables, rows: seq<PickupGroup>, kind: WasteType)
    requires OneRowPerGroup(rows) && forall r | r in rows :: r.count == |InGroup(t, r.kind, r.status)|
    ensures TotalOf(rows, kind) == |Covered(t, rows, kind)|
  {
    if rows == [] {
      assert Covered(t, rows, kind) == {};
    } else {
      var n := |rows| - 1;
      TotalCounts(t, rows[..n], kind);
      LastGroupIsNew(rows, n);
      assert rows == rows[..n] + [rows[n]];
      CoveredSnoc(t, rows[..n], rows[n], kind);
    }
  }

  /** The total of a type is the number of its pickups, whatever the order of the groups. */
  lemma TotalIsKindCount(t: Tables, rows: seq<PickupGroup>, kind: WasteType)
    requires GroupsPickups(t, rows)
    ensures TotalOf(rows, kind) == |OfKind(t, kind)|
    ensures kind in KindsOf(rows) <==> OfKind(t, kind) != {}
  {
    TotalCounts(t, rows, kind);
    forall i | i in OfKind(t, kind) ensures i in Covered(t, rows, kind) && kind in KindsOf(rows) {
      var r :| r in rows && r.kind == kind && r.status == t.pickups[i].status;
    }
    assert Covered(t, rows, kind) == OfKind(t, kind);
    if kind in KindsOf(rows) {
      var r :| r in rows && r.kind == kind;
      var i :| i in InGroup(t, r.kind, r.status);
      assert i in OfKind(t, kind);
    }
  }

  function CountIn(m: map<PickupStatus, nat>, s: PickupStatus): nat {
    if s in m then m[s] else 0
  }

  /** by_status holds the number of pickups of each status that occurs, and no other. */
  lemma {:induction false} StatusesCount(t: Tables, rows: seq<PickupGroup>, kind: WasteType, s: PickupStatus)
    requires forall r | r in rows :: r.count == |InGroup(t, r.kind, r.status)|
    ensures s in StatusesOf(rows, kind) <==> Grouped(rows, kind, s)
    ensures s in StatusesOf(rows, kind) ==> StatusesOf(rows, kind)[s] == |InGroup(t, kind, s)|
  {
    if rows != [] {
      var n := |rows| - 1;
      StatusesCount(t, rows[..n], kind, s);
      assert rows == rows[..n] + [rows[n]];
    }
  }

  /** The total of a type is the sum of its by_status counts. */
  lemma {:induction false} TotalIsStatusSum(t: Tables, rows: seq<PickupGroup>, kind: WasteType)
    requires OneRowPerGroup(rows) && forall r | r in rows :: r.count == |InGroup(t, r.kind, r.status)|
    ensures var m := StatusesOf(rows, kind);
      TotalOf(rows, kind) == CountIn(m, Pending) + CountIn(m, Scheduled) + CountIn(m, Completed) + CountIn(m, Canceled)
  {
    if rows != [] {
      var n := |rows| - 1;
      TotalIsStatusSum(t, rows[..n], kind);
      LastGroupIsNew(rows, n);
      StatusesCount(t, rows[..n], rows[n].kind, rows[n].status);
    }
  }

  /** All types together account for every pickup. */
  lemma TotalsCoverAll(t: Tables, rows: seq<PickupGroup>)
    requires GroupsPickups(t, rows)
    ensures TotalOf(rows, Organic) + TotalOf(rows, Plastic) + TotalOf(rows, Paper) + TotalOf(rows, Electronic)
         == |t.pickups.Keys|
  {
    TotalIsKindCount(t, rows, Organic);
    TotalIsKindCount(t, rows, Plastic);
    TotalIsKindCount(t, rows, Paper);
    TotalIsKindCount(t, rows, Electronic);
    KindsPartition(t);
  }

  lemma KindsPartition(t: Tables)
    ensures |OfKind(t, Organic)| + |OfKind(t, Plastic)| + |OfKind(t, Paper)| + |OfKind(t, Electronic)|
         == |t.pickups.Keys|
  {
    var a, b, c, d := OfKind(t, Organic), OfKind(t, Plastic), OfKind(t, Paper), OfKind(t, Electronic);
    UnionCount(a, b);
    UnionCount(a + b, c);
    UnionCount(a + b + c, d);
    assert a + b + c + d == t.pickups.Keys;
  }

  // ---- payments by status ----

  datatype PaymentGroup = PaymentGroup(status: PaymentStatus, count: nat, revenue: Money)

  function WithStatusOf(t: Tables, s: PaymentStatus): set<Id> {
    set i | i in t.payments && t.payments[i].status == s
  }

  ghost function Amounts(t: Tables): Id -> int {
    i => if i in t.payments then t.payments[i].amount else 0
  }

  /** Revenue of one status: the sum of the amounts of its payments. */
  ghost function Revenue(t: Tables, s: PaymentStatus): Money {
    Sum(WithStatusOf(t, s), Amounts(t))
  }

  ghost predicate GroupsPayments(t: Tables, rows: seq<PaymentGroup>) {
    && (forall i, j | 0 <= i < j < |rows| :: rows[i].status != rows[j].status)
    && (forall r | r in rows :: r.count == |WithStatusOf(t, r.status)| && r.revenue == Revenue(t, r.status))
    && (forall i | i in t.payments :: exists r :: r in rows && r.status == t.payments[i].status)
  }

  /** The fold of the payment summary: one entry per group, and the revenue of the paid group,
      zero when there is none. */
  method PaymentSummary(ghost t: Tables, rows: seq<PaymentGroup>)
    returns (byStatus: seq<PaymentGroup>, totalRevenue: Money)
    requires GroupsPayments(t, rows)
    ensures byStatus == rows
    ensures totalRevenue == Revenue(t, PaymentPaid)
  {
    byStatus := [];
    totalRevenue := 0;
    for i := 0 to |rows|
      invariant byStatus == rows[..i]
      invariant (forall k | 0 <= k < i :: rows[k].status != PaymentPaid) ==> totalRevenue == 0
      invariant forall k | 0 <= k < i && rows[k].status == PaymentPaid :: totalRevenue == rows[k].revenue
    {
      byStatus := byStatus + [PaymentGroup(rows[i].status, rows[i].count, rows[i].revenue)];
      if rows[i].status == PaymentPaid {
        totalRevenue := rows[i].revenue;
      }
    }
    PaidGroup(t, rows, totalRevenue);
  }

  lemma PaidGroup(t: Tables, rows: seq<PaymentGroup>, revenue: Money)
    requires GroupsPayments(t, rows)
    requires (forall k | 0 <= k < |rows| :: rows[k].status != PaymentPaid) ==> revenue == 0
    requires forall k | 0 <= k < |rows| && rows[k].status == PaymentPaid :: revenue == rows[k].revenue
    ensures revenue == Revenue(t, PaymentPaid)
  {
  }
}

/** Paged lists: what LIMIT and OFFSET cut out of an ordered result, page by page. */
module Paging {
  import opened Domain
  import opened Sql
  import opened Filter

  const MAX_INT64: int := 0x7fff_ffff_ffff_ffff
  const TWO_TO_THE_64: int := 0x1_0000_0000_0000_0000

  /** The result of int arithmetic on 64 bits. */
  function Wrap(x: int): (r: int)
    ensures -MAX_INT64 - 1 <= r <= MAX_INT64
    ensures (x - r) % TWO_TO_THE_64 == 0
    ensures -MAX_INT64 - 1 <= x <= MAX_INT64 ==> r == x
  {
    (x + MAX_INT64 + 1) % TWO_TO_THE_64 - MAX_INT64 - 1
  }

  // ---- request parameters ----

  /** A query parameter: missing, not an integer of 64 bits, or a number. */
  datatype Raw = Missing | Malformed | Number(value: int)

  /** Defaults 1 and 20; anything given must be a positive page and a size from 1 to 100. */
  method PaginationParams(rawPage: Raw, rawPerPage: Raw) returns (r: Result<(int, int)>)
    ensures r.Err? <==> || rawPage.Malformed? || (rawPage.Number? && rawPage.value <= 0)
                        || rawPerPage.Malformed? || (rawPerPage.Number? && !(1 <= rawPerPage.value <= 100))
    ensures r.Err? ==> r.error == Validation
    ensures r.Ok? ==> 1 <= r.value.0 && 1 <= r.value.1 <= 100
    ensures r.Ok? ==> r.value == (if rawPage.Number? then rawPage.value else 1,
                                  if rawPerPage.Number? then rawPerPage.value else 20)
  {
    var page, perPage := 0, 0;
    if !rawPage.Missing? {
      if rawPage.Malformed? || rawPage.value <= 0 {
        return Err(Validation);
      }
      page := rawPage.value;
    }
    if !rawPerPage.Missing? {
      if rawPerPage.Malformed? || rawPerPage.value <= 0 || rawPerPage.value > 100 {
        return Err(Validation);
      }
      perPage := rawPerPage.value;
    }
    if page == 0 { page := 1; }
    if perPage == 0 { perPage := 20; }
    return Ok((page, perPage));
  }

  /** Number of pages reported with a list. */
  function TotalPages(total: nat, perPage: int): int
    requires perPage >= 1
  {
    var pages := (total + perPage - 1) / perPage;
    if pages == 0 then 1 else pages
  }

  // ---- queries ----

  /** The text of a list query and the arguments it is sent with: LIMIT $limit OFFSET $offset. */
  datatype ListQuery = ListQuery(conds: seq<Condition>, args: seq<Argument>, limit: nat, offset: nat)

  // ---- pages ----

  function Least(a: int, b: int): int { if a < b then a else b }

  /** LIMIT and OFFSET on an ordered result; a negative OFFSET is rejected. */
  function Slice<T>(rows: seq<T>, limit: nat, offset: int): Result<seq<T>> {
    if offset < 0 then Err(Internal)
    else Ok(rows[Least(offset, |rows|)..Least(offset + limit, |rows|)])
  }

  function Page<T>(rows: seq<T>, page: int, perPage: nat): Result<seq<T>>
    requires page >= 1 && perPage >= 1
  {
    Slice(rows, perPage, Wrap((page - 1) * perPage))
  }

  // ---- what a query selects ----

  /** `rows` are the rows of table `t` that the WHERE clause selects, each once, newest first. */
  ghost predicate Selects(t: Tables, conds: seq<Condition>, args: seq<Argument>, rows: seq<Payment>) {
    && (forall p :: p in rows <==> p in t.payments.Values && Where(conds, args, p) == True)
    && NewestFirst(rows)
  }

  ghost predicate NewestFirst(rows: seq<Payment>) {
    forall i, j | 0 <= i < j < |rows| :: rows[i] != rows[j] && rows[i].createdAt >= rows[j].createdAt
  }

  /** A complete answer of the list request: the rows that meet the filter. */
  ghost predicate Answers(t: Tables, f: PaymentFilter, rows: seq<Payment>) {
    (forall p :: p in rows <==> p in t.payments.Values && Meets(f, p)) && NewestFirst(rows)
  }

  predicate IntBound(args: seq<Argument>, placeholder: nat) {
    1 <= placeholder <= |args| && args[placeholder - 1].IntArg?
  }

  /** LIMIT and OFFSET of a query, as bound, applied to the rows its WHERE clause selects. */
  function Cut(q: ListQuery, rows: seq<Payment>): Result<seq<Payment>> {
    if !IntBound(q.args, q.limit) || !IntBound(q.args, q.offset) || q.args[q.limit - 1].n < 0 then Err(Internal)
    else Slice(rows, q.args[q.limit - 1].n, q.args[q.offset - 1].n)
  }

  lemma ExpressesSelects(conds: seq<Condition>, args: seq<Argument>, f: PaymentFilter, t: Tables, rows: seq<Payment>)
    requires Expresses(conds, args, f)
    ensures Selects(t, conds, args, rows) <==> Answers(t, f, rows)
  {
  }

  /** The count query and the page query of one list request: over the rows that meet the
      filter, the count query counts all, and the page query returns the page asked for. */
  method BuildList(f: PaymentFilter, page: int, perPage: int)
    returns (conds: seq<Condition>, countArgs: seq<Argument>, q: ListQuery)
    ensures q.conds == conds && Expresses(conds, countArgs, f) && Expresses(conds, q.args, f)
    ensures forall t, rows :: Selects(t, conds, countArgs, rows) <==> Answers(t, f, rows)
    ensures forall t, rows :: Selects(t, conds, q.args, rows) <==> Answers(t, f, rows)
    ensures forall rows ::
              Cut(q, rows) == Page(rows, if page <= 0 then 1 else page, if perPage <= 0 then 20 else perPage)
  {
    var n := if page <= 0 then 1 else page;
    var k := if perPage <= 0 then 20 else perPage;
    var next;
    conds, countArgs, next := BuildFilter(f);
    var args := countArgs + [IntArg(k), IntArg(Wrap((n - 1) * k))];
    forall p ensures Where(conds, args, p) == Where(conds, countArgs, p) {
      MoreArguments(conds, countArgs, [IntArg(k), IntArg(Wrap((n - 1) * k))], p);
    }
    q := ListQuery(conds, args, next, next + 1);
    forall t, rows ensures Selects(t, conds, countArgs, rows) <==> Answers(t, f, rows) {
      ExpressesSelects(conds, countArgs, f, t, rows);
    }
    forall t, rows ensures Selects(t, conds, args, rows) <==> Answers(t, f, rows) {
      ExpressesSelects(conds, args, f, t, rows);
    }
  }

  /** Pages 1 to `k`, one after the other. */
  function Pages<T>(rows: seq<T>, k: nat, perPage: nat): Result<seq<T>>
    requires perPage >= 1
  {
    if k == 0 then Ok([])
    else
      match (Pages(rows, k - 1, perPage), Page(rows, k, perPage))
      case (Ok(a), Ok(b)) => Ok(a + b)
      case _ => Err(Internal)
  }

  lemma Scale(a: int, b: int, k: nat)
    requires a <= b
    ensures a * k <= b * k
  {
  }

  lemma {:induction false} PagesArePrefix<T>(rows: seq<T>, k: nat, perPage: nat)
    requires perPage >= 1 && k * perPage <= MAX_INT64
    ensures Pages(rows, k, perPage) == Ok(rows[..Least(k * perPage, |rows|)])
    decreases k
  {
    if k > 0 {
      assert (k - 1) * perPage == k * perPage - perPage;
      PagesArePrefix(rows, k - 1, perPage);
      Scale(0, k - 1, perPage);
      var a, b := Least((k - 1) * perPage, |rows|), Least(k * perPage, |rows|);
      assert rows[..a] + rows[a..b] == rows[..b];
    }
  }

  lemma EnoughPages(total: nat, perPage: nat)
    requires perPage >= 1
    ensures var k := TotalPages(total, perPage);
      && k >= 1 && total <= k * perPage && (k > 1 ==> (k - 1) * perPage < total) && k * perPage <= total + perPage
  {
    var k := (total + perPage - 1) / perPage;
    var r := (total + perPage - 1) % perPage;
    assert total + perPage - 1 == k * perPage + r;
    assert (k - 1) * perPage == k * perPage - perPage;
  }

  /** Pages 1 to total_pages are exactly the rows, in order, each once. */
  lemma PagesAreAllRows<T>(rows: seq<T>, perPage: nat)
    requires perPage >= 1 && |rows| + perPage <= MAX_INT64
    ensures Pages(rows, TotalPages(|rows|, perPage), perPage) == Ok(rows)
  {
    var k := TotalPages(|rows|, perPage);
    EnoughPages(|rows|, perPage);
    PagesArePrefix(rows, k, perPage);
    assert rows[..|rows|] == rows;
  }

  /** Every page but the last is full, no page is longer than asked for, and as long as the
      offset fits 64 bits every later page is empty. */
  lemma PageSizes<T>(rows: seq<T>, page: int, perPage: nat)
    requires page >= 1 && perPage >= 1 && |rows| + perPage <= MAX_INT64
    requires (page - 1) * perPage <= MAX_INT64
    ensures Page(rows, page, perPage).Ok?
    ensures var p := Page(rows, page, perPage).value; var k := TotalPages(|rows|, perPage);
      && |p| <= perPage
      && (page < k ==> |p| == perPage)
      && (page == k ==> |p| == |rows| - (k - 1) * perPage)
      && (page > k ==> p == [])
  {
    var k := TotalPages(|rows|, perPage);
    EnoughPages(|rows|, perPage);
    Scale(0, page - 1, perPage);
    assert page * perPage == (page - 1) * perPage + perPage;
    assert (k - 1) * perPage == k * perPage - perPage;
    if page < k {
      Scale(page, k - 1, perPage);
    } else if page > k {
      Scale(k, page - 1, perPage);
    }
  }

  /** What a page past the last one returns in general: nothing exactly if the wrapped offset
      lies behind the rows. It is an error if the offset wraps to a negative number, and shows
      rows of earlier pages if it wraps to a small one. */
  lemma LatePageEmptyIff<T>(rows: seq<T>, page: int, perPage: nat)
    requires page >= 1 && perPage >= 1
    ensures Page(rows, page, perPage) == Ok([]) <==> |rows| <= Wrap((page - 1) * perPage)
    ensures Page(rows, page, perPage).Err? <==> Wrap((page - 1) * perPage) < 0
  {
    var offset := Wrap((page - 1) * perPage);
    if 0 <= offset < |rows| {
      assert Page(rows, page, perPage).value[0] == rows[offset];
    }
  }

  /** A page far behind the last one that shows the first rows again. */
  lemma FarPageRepeats<T>(rows: seq<T>)
    requires rows != []
    ensures Page(rows, 0x4000_0000_0000_0001, 4) == Page(rows, 1, 4) != Ok([])
    ensures |rows| < MAX_INT64 - 4 ==> TotalPages(|rows|, 4) < 0x4000_0000_0000_0001
  {
    EnoughPages(|rows|, 4);
    LatePageEmptyIff(rows, 1, 4);
  }

  // ---- the order ----

  ghost predicate DistinctTimes(t: Tables) {
    forall p, q | p in t.payments.Values && q in t.payments.Values && p.createdAt == q.createdAt :: p == q
  }

  ghost predicate Descending(rows: seq<Payment>) {
    forall i, j | 0 <= i < j < |rows| :: rows[i].createdAt > rows[j].createdAt
  }

  lemma {:induction false} DescendingIsUnique(a: seq<Payment>, b: seq<Payment>)
    requires Descending(a) && Descending(b) && forall p :: p in a <==> p in b
    ensures a == b
  {
    assert a != [] ==> a[0] in b;
    assert b != [] ==> b[0] in a;
    if a != [] {
      assert a[0] == b[0];
      forall p ensures p in a[1..] <==> p in b[1..] {
        assert p in a[1..] <==> p in a && p != a[0];
        assert p in b[1..] <==> p in b && p != b[0];
      }
      DescendingIsUnique(a[1..], b[1..]);
    }
  }

  /** With distinct creation times the order is total, so pages fetched by separate queries
      over the same rows are pages of one and the same list. */
  lemma AnswerIsUnique(t: Tables, f: PaymentFilter, a: seq<Payment>, b: seq<Payment>)
    requires DistinctTimes(t) && Answers(t, f, a) && Answers(t, f, b)
    ensures a == b
  {
    forall i, j | 0 <= i < j < |a| ensures a[i].createdAt > a[j].createdAt {
      assert a[i] in t.payments.Values && a[j] in t.payments.Values;
    }
    forall i, j | 0 <= i < j < |b| ensures b[i].createdAt > b[j].createdAt {
      assert b[i] in t.payments.Values && b[j] in t.payments.Values;
    }
    DescendingIsUnique(a, b);
  }

  /** Fetched page by page with separate queries over the same rows, the list comes back
      complete, in order and without repetition. */
  lemma PagedListIsComplete(t: Tables, f: PaymentFilter, perPage: nat, answers: seq<seq<Payment>>, rows: seq<Payment>)
    requires DistinctTimes(t) && perPage >= 1 && Answers(t, f, rows) && |rows| + perPage <= MAX_INT64
    requires |answers| == TotalPages(|rows|, perPage) && forall k | 0 <= k < |answers| :: Answers(t, f, answers[k])
    ensures Fetched(answers, perPage) == Ok(rows)
  {
    forall k | 0 <= k < |answers| ensures answers[k] == rows {
      AnswerIsUnique(t, f, answers[k], rows);
    }
    FetchedArePages(answers, rows, perPage);
    PagesAreAllRows(rows, perPage);
  }

  /** Page k of the k-th query's own answer, for every k, one after the other. */
  function Fetched(answers: seq<seq<Payment>>, perPage: nat): Result<seq<Payment>>
    requires perPage >= 1
  {
    if answers == [] then Ok([])
    else
      match (Fetched(answers[..|answers| - 1], perPage), Page(answers[|answers| - 1], |answers|, perPage))
      case (Ok(a), Ok(b)) => Ok(a + b)
      case _ => Err(Internal)
  }

  lemma {:induction false} FetchedArePages(answers: seq<seq<Payment>>, rows: seq<Payment>, perPage: nat)
    requires perPage >= 1 && forall k | 0 <= k < |answers| :: answers[k] == rows
    ensures Fetched(answers, perPage) == Pages(rows, |answers|, perPage)
  {
    if answers != [] {
      FetchedArePages(answers[..|answers| - 1], rows, perPage);
    }
  }
}

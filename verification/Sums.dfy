/** Finite sums over sets of ids. */
module Sums {
  import opened Domain

  ghost function Sum(s: set<Id>, f: Id -> int): int {
    if s == {} then 0 else var x :| x in s; f(x) + Sum(s - {x}, f)
  }

  lemma {:induction false} SumTake(s: set<Id>, f: Id -> int, x: Id)
    requires x in s
    ensures Sum(s, f) == f(x) + Sum(s - {x}, f)
  {
    var y :| y in s && Sum(s, f) == f(y) + Sum(s - {y}, f);
    if y != x {
      SumTake(s - {y}, f, x);
      SumTake(s - {x}, f, y);
      assert s - {y} - {x} == s - {x} - {y};
    }
  }

  /** Sums compare pointwise; `extra` marks the ids whose term drops by at least one. */
  lemma {:induction false} SumDrop(s: set<Id>, f: Id -> int, g: Id -> int, extra: set<Id>)
    requires extra <= s
    requires forall i | i in s :: f(i) + (if i in extra then 1 else 0) <= g(i)
    ensures Sum(s, f) + |extra| <= Sum(s, g)
  {
    if s != {} {
      var x :| x in s;
      SumTake(s, f, x);
      SumTake(s, g, x);
      SumDrop(s - {x}, f, g, extra - {x});
      assert |extra - {x}| == |extra| - if x in extra then 1 else 0;
    }
  }

  lemma {:induction false} SumEqual(s: set<Id>, f: Id -> int, g: Id -> int)
    requires forall i | i in s :: f(i) == g(i)
    ensures Sum(s, f) == Sum(s, g)
  {
    if s != {} {
      var x :| x in s;
      SumTake(s, f, x);
      SumTake(s, g, x);
      SumEqual(s - {x}, f, g);
    }
  }

  lemma {:induction false} SumUnion(s: set<Id>, t: set<Id>, f: Id -> int)
    requires s !! t
    ensures Sum(s + t, f) == Sum(s, f) + Sum(t, f)
  {
    if s == {} {
      assert s + t == t;
    } else {
      var x :| x in s;
      SumTake(s, f, x);
      SumTake(s + t, f, x);
      assert s + t - {x} == (s - {x}) + t;
      SumUnion(s - {x}, t, f);
    }
  }

  lemma {:induction false} SumNonNegative(s: set<Id>, f: Id -> int)
    requires forall i | i in s :: 0 <= f(i)
    ensures 0 <= Sum(s, f)
  {
    if s != {} {
      var x :| x in s;
      SumTake(s, f, x);
      SumNonNegative(s - {x}, f);
    }
  }

  /** Split two sums over their common part. */
  lemma SumOverlap(s: set<Id>, t: set<Id>, f: Id -> int, g: Id -> int)
    ensures Sum(s, f) == Sum(s * t, f) + Sum(s - t, f) && Sum(t, g) == Sum(s * t, g) + Sum(t - s, g)
  {
    SumUnion(s * t, s - t, f);
    assert s * t + (s - t) == s;
    SumUnion(s * t, t - s, g);
    assert s * t + (t - s) == t;
  }
}

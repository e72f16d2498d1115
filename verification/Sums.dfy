/** Sums of a natural-valued function over a finite set. */
module Sums {

  ghost function Sum<T(!new)>(s: set<T>, f: T -> nat): nat {
    if s == {} then 0 else var x :| x in s; f(x) + Sum(s - {x}, f)
  }

  lemma {:induction false} SumOne<T(!new)>(s: set<T>, f: T -> nat, x: T)
    requires x in s
    ensures Sum(s, f) == f(x) + Sum(s - {x}, f)
  {
    var y :| y in s && Sum(s, f) == f(y) + Sum(s - {y}, f);
    if y != x {
      SumOne(s - {y}, f, x);
      SumOne(s - {x}, f, y);
      assert s - {y} - {x} == s - {x} - {y};
    }
  }

  lemma {:induction false} SumMonotone<T(!new)>(s: set<T>, f: T -> nat, g: T -> nat)
    requires forall x :: x in s ==> f(x) <= g(x)
    ensures Sum(s, f) <= Sum(s, g)
  {
    if s != {} {
      var x :| x in s;
      SumOne(s, f, x);
      SumOne(s, g, x);
      SumMonotone(s - {x}, f, g);
    }
  }

  lemma {:induction false} SumStrict<T(!new)>(s: set<T>, f: T -> nat, g: T -> nat, x: T)
    requires forall y :: y in s ==> f(y) <= g(y)
    requires x in s && f(x) < g(x)
    ensures Sum(s, f) < Sum(s, g)
  {
    SumOne(s, f, x);
    SumOne(s, g, x);
    SumMonotone(s - {x}, f, g);
  }

  lemma SubsetSize<T>(a: set<T>, b: set<T>)
    requires a <= b
    ensures |a| <= |b|
  {
    assert b == a + (b - a);
  }
}

/** Finite sums and counts over sets of row keys, in the form the bookkeeping proofs use them:
    what one inserted, removed or changed row does to a total. */
module Sums {

  ghost function Sum<K(!new)>(s: set<K>, f: K -> int): int {
    if s == {} then 0 else
      var x :| x in s;
      f(x) + Sum(s - {x}, f)
  }

  // The total does not depend on the order in which the rows are visited.
  lemma {:induction false} SumRemove<K(!new)>(s: set<K>, f: K -> int, x: K)
    requires x in s
    ensures Sum(s, f) == f(x) + Sum(s - {x}, f)
  {
    var y :| y in s && Sum(s, f) == f(y) + Sum(s - {y}, f);
    if y != x {
      SumRemove(s - {y}, f, x);
      SumRemove(s - {x}, f, y);
      assert s - {y} - {x} == s - {x} - {y};
    }
  }

  lemma {:induction false} SumSame<K(!new)>(s: set<K>, f: K -> int, g: K -> int)
    requires forall x :: x in s ==> f(x) == g(x)
    ensures Sum(s, f) == Sum(s, g)
  {
    if s != {} {
      var x :| x in s;
      SumRemove(s, f, x);
      SumRemove(s, g, x);
      SumSame(s - {x}, f, g);
    }
  }

  // One row inserted, every other row keeping its value.
  lemma SumInsert<K(!new)>(s: set<K>, f: K -> int, g: K -> int, x: K)
    requires x !in s
    requires forall y :: y in s ==> f(y) == g(y)
    ensures Sum(s + {x}, g) == Sum(s, f) + g(x)
  {
    SumRemove(s + {x}, g, x);
    assert s + {x} - {x} == s;
    SumSame(s, f, g);
  }

  // One row changed in place.
  lemma SumChange<K(!new)>(s: set<K>, f: K -> int, g: K -> int, x: K)
    requires x in s
    requires forall y :: y in s && y != x ==> f(y) == g(y)
    ensures Sum(s, g) == Sum(s, f) - f(x) + g(x)
  {
    SumRemove(s, f, x);
    SumRemove(s, g, x);
    SumSame(s - {x}, f, g);
  }

  // Two totals that differ by c on the rows of one set and by -c on those of another.
  lemma {:induction false} SumDifference<K(!new)>(s: set<K>, f: K -> int, g: K -> int, c: int, plus: set<K>,
                                                  minus: set<K>)
    requires plus <= s && minus <= s
    requires forall x :: x in s ==> f(x) == g(x) + (if x in plus then c else 0) - (if x in minus then c else 0)
    ensures Sum(s, f) == Sum(s, g) + c * |plus| - c * |minus|
  {
    if s != {} {
      var x :| x in s;
      SumRemove(s, f, x);
      SumRemove(s, g, x);
      SumDifference(s - {x}, f, g, c, plus - {x}, minus - {x});
      TimesLess(c, plus, x);
      TimesLess(c, minus, x);
    }
  }

  lemma TimesLess<K>(c: int, s: set<K>, x: K)
    ensures c * |s - {x}| == c * |s| - if x in s then c else 0
  {
    if x in s { assert |s - {x}| == |s| - 1; } else { assert s - {x} == s; }
  }
}

/** Finite sums over a set, as the invariants about money need them. */
module Sums {

  ghost function Sum<T(!new)>(s: set<T>, f: T -> int): int
    decreases |s|
  {
    if s == {} then 0
    else
      var x :| x in s;
      f(x) + Sum(s - {x}, f)
  }

  /** Any element may be split off, not only the one the definition picks. */
  lemma {:induction false} SumSplit<T(!new)>(s: set<T>, f: T -> int, x: T)
    requires x in s
    ensures Sum(s, f) == f(x) + Sum(s - {x}, f)
    decreases |s|
  {
    var y :| y in s && Sum(s, f) == f(y) + Sum(s - {y}, f);
    if y != x {
      SumSplit(s - {y}, f, x);
      SumSplit(s - {x}, f, y);
      assert s - {y} - {x} == s - {x} - {y};
    }
  }

  lemma {:induction false} SumAgree<T(!new)>(s: set<T>, f: T -> int, g: T -> int)
    requires forall x :: x in s ==> f(x) == g(x)
    ensures Sum(s, f) == Sum(s, g)
    decreases |s|
  {
    if s != {} {
      var x :| x in s;
      SumSplit(s, f, x);
      SumSplit(s, g, x);
      SumAgree(s - {x}, f, g);
    }
  }

  /** Writing one element, new or not, changes the sum by the difference there. */
  lemma SumWrite<T(!new)>(s: set<T>, f: T -> int, g: T -> int, x: T)
    requires forall y :: y in s && y != x ==> f(y) == g(y)
    requires x !in s ==> f(x) == 0
    ensures Sum(s + {x}, g) == Sum(s, f) - f(x) + g(x)
  {
    var rest := s - {x};
    SumAgree(rest, f, g);
    SumSplit(s + {x}, g, x);
    assert s + {x} - {x} == rest;
    if x in s {
      SumSplit(s, f, x);
    } else {
      assert rest == s;
    }
  }

  /** Two elements change: the written one, and one that is already there. */
  lemma SumWriteTwo<T(!new)>(s: set<T>, f: T -> int, g: T -> int, x: T, z: T)
    requires z in s && z != x
    requires forall y :: y in s && y != x && y != z ==> f(y) == g(y)
    requires x !in s ==> f(x) == 0
    ensures Sum(s + {x}, g) == Sum(s, f) - f(x) + g(x) - f(z) + g(z)
  {
    SumSplit(s, f, z);
    SumWrite(s - {z}, f, g, x);
    SumSplit(s + {x}, g, z);
    assert s + {x} - {z} == s - {z} + {x};
  }
}

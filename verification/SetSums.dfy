/** Sums of a natural measure over a finite set. */
module SetSums {

  ghost function SetSum<T>(s: set<T>, f: T -> nat): nat {
    if s == {} then 0 else var x :| x in s; f(x) + SetSum(s - {x}, f)
  }

  lemma {:induction false} SetSumAdd<T>(s: set<T>, x: T, f: T -> nat)
    requires x !in s
    ensures SetSum(s + {x}, f) == SetSum(s, f) + f(x)
  {
    var t := s + {x};
    var y :| y in t && SetSum(t, f) == f(y) + SetSum(t - {y}, f);
    if y == x {
      assert t - {x} == s;
    } else {
      assert t - {y} == (s - {y}) + {x} && s == (s - {y}) + {y};
      SetSumAdd(s - {y}, x, f);
      SetSumAdd(s - {y}, y, f);
    }
  }

  lemma {:induction false} SetSumIgnoresZeros<T>(s: set<T>, more: set<T>, f: T -> nat)
    requires s !! more && forall x :: x in more ==> f(x) == 0
    ensures SetSum(s + more, f) == SetSum(s, f)
    decreases |more|
  {
    if more == {} {
      assert s + more == s;
    } else {
      var x :| x in more;
      var fewer := s + (more - {x});
      SetSumIgnoresZeros(s, more - {x}, f);
      assert s + more == fewer + {x};
      hide SetSum;
      SetSumAdd(fewer, x, f);
    }
  }
}

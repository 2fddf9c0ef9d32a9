/** Sizes of finite sets and two facts about products, used wherever rows are counted. */
module Counting {
  lemma SubsetSize<T>(a: set<T>, b: set<T>)
    requires a <= b
    ensures |a| <= |b|
  {
    assert b == a + (b - a);
  }

  lemma AddSizes<T>(a: set<T>, b: set<T>)
    requires a !! b
    ensures |a + b| == |a| + |b|
  {
  }

  lemma PeelSize<T>(whole: set<T>, part: set<T>)
    requires part <= whole
    ensures |whole - part| == |whole| - |part|
  {
  }

  /** A bijection, given as a function that is one-to-one on `a` and onto `b`. */
  lemma {:induction false} ImageSize<A, B>(a: set<A>, b: set<B>, f: A -> B)
    requires forall x, y :: x in a && y in a && f(x) == f(y) ==> x == y
    requires forall x :: x in a ==> f(x) in b
    requires forall y :: y in b ==> exists x :: x in a && f(x) == y
    ensures |a| == |b|
  {
    if a == {} {
      assert b == {};
    } else {
      var x :| x in a;
      var a', b' := a - {x}, b - {f(x)};
      forall y | y in b' ensures exists z :: z in a' && f(z) == y {
        var z :| z in a && f(z) == y;
        assert z in a';
      }
      ImageSize(a', b', f);
    }
  }

  lemma TimesMonotone(x: int, y: int, a: int)
    requires a >= 0 && x <= y
    ensures x * a <= y * a
  {
    assert (y - x) * a >= 0;
  }

  lemma OneMoreTimes(d: int, count: nat)
    ensures d * (count + 1) == d * count + d
  {
  }
}

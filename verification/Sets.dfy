/** Sizes of finite sets. */
module Sets {
  import opened Options

  lemma SubsetSize<T>(a: set<T>, b: set<T>)
    requires a <= b
    ensures |a| <= |b|
  {
    if a != {} {
      var x :| x in a;
      SubsetSize(a - {x}, b - {x});
    }
  }

  lemma MaybeOneMore<T>(before: set<T>, after: set<T>, more: Option<T>)
    requires forall t :: t in after <==> t in before || more == Some(t)
    requires more.Some? ==> more.value !in before
    ensures |after| == |before| + if more.Some? then 1 else 0
  {
    assert after == if more.Some? then before + {more.value} else before;
  }

  lemma SixParts<T>(all: set<T>, a: set<T>, b: set<T>, c: set<T>, d: set<T>, e: set<T>, f: set<T>)
    requires all == a + b + c + d + e + f && a !! b !! c !! d !! e !! f
    ensures |all| == |a| + |b| + |c| + |d| + |e| + |f|
  {
    assert |a + b + c| == |a| + |b| + |c|;
    assert |a + b + c + d + e| == |a + b + c| + |d| + |e|;
  }

  lemma Differences<T>(a: set<T>, b: set<T>)
    ensures |a| > |b| <==> |a - b| > |b - a|
  {
    assert a == (a - b) + (a * b) && b == (b - a) + (a * b);
    assert |a| == |a - b| + |a * b| && |b| == |b - a| + |a * b|;
  }

  // A set that has at most one element more than another.
  lemma OneMore<T>(a: set<T>, b: set<T>, more: Option<T>)
    requires forall t | t in a :: t in b || more == Some(t)
    requires more.Some? ==> more.value !in b
    ensures |a| > |b| <==> more.Some? && more.value in a && b <= a
  {
    Differences(a, b);
    assert a - b == if more.Some? && more.value in a then {more.value} else {};
    if b <= a {
      assert b - a == {};
    } else {
      var t :| t in b - a;
      SubsetSize({t}, b - a);
    }
  }
}

/** Counting the elements of finite sets. */
module Sets {
  /** Two sets that differ at most in one element. */
  lemma {:induction false} WithAndWithout<T>(a: set<T>, b: set<T>, x: T)
    requires a - {x} == b - {x}
    ensures |a| == |a - {x}| + (if x in a then 1 else 0)
    ensures |b| == |a - {x}| + (if x in b then 1 else 0)
  {
    assert x in a ==> a == (a - {x}) + {x};
    assert x !in a ==> a == a - {x};
    assert x in b ==> b == (a - {x}) + {x};
    assert x !in b ==> b == a - {x};
  }

  lemma {:induction false} SubsetIsSmaller<T>(a: set<T>, b: set<T>)
    requires a <= b
    ensures |a| <= |b|
  {
    assert |b| == |a| + |b - a| by {
      assert b == a + (b - a);
    }
  }
}

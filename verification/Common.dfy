/** Small vocabulary shared by the models: optional values, and the cardinality
    facts that the counting invariants rest on. */
module Common {

  datatype Option<+T> = None | Some(value: T)

  /** A subset is no larger than its superset. */
  lemma {:induction false} SubsetCard<T>(small: set<T>, large: set<T>)
    requires small <= large
    ensures |small| <= |large|
  {
    if small != {} {
      var x :| x in small;
      SubsetCard(small - {x}, large - {x});
    }
  }

  /** A subset of the same size is the whole set. */
  lemma SubsetSameCard<T>(small: set<T>, large: set<T>)
    requires small <= large && |small| >= |large|
    ensures small == large
  {
    if small != large {
      assert !(large <= small);
      var x :| x in large && x !in small;
      SubsetCard(small, large - {x});
    }
  }

  /** Some element: iteration over a set or map visits it in no particular order. */
  method Pick<T(==)>(s: set<T>) returns (x: T)
    requires s != {}
    ensures x in s
  {
    x :| x in s;
  }

  /** The n smallest naturals. */
  function Below(n: nat): (s: set<nat>)
    ensures forall i :: i in s <==> 0 <= i < n
    ensures |s| == n
  {
    if n == 0 then {} else Below(n - 1) + {n - 1}
  }

  ghost predicate Injective<A, B>(f: map<A, B>)
  {
    forall a, b :: a in f && b in f && f[a] == f[b] ==> a == b
  }

  /** An injective map has no more keys than values to hit; when as many, it hits them all. */
  lemma {:induction false} InjectionCard<A, B>(f: map<A, B>, range: set<B>)
    requires Injective(f)
    requires forall a :: a in f ==> f[a] in range
    ensures |f| <= |range|
    ensures |f| == |range| ==> forall b :: b in range ==> exists a :: a in f && f[a] == b
    decreases |f|
  {
    if f.Keys == {} {
      assert f == map[];
      assert |f| == 0;
    } else {
      var a :| a in f;
      var g := f - {a};
      assert g.Keys == f.Keys - {a};
      assert |g| == |f| - 1 by { assert |g.Keys| == |f.Keys| - 1; }
      InjectionCard(g, range - {f[a]});
      assert |range - {f[a]}| == |range| - 1;
      if |f| == |range| {
        forall b | b in range ensures exists a' :: a' in f && f[a'] == b {
          if b == f[a] {
          } else {
            assert b in range - {f[a]};
            var a' :| a' in g && g[a'] == b;
            assert a' in f && f[a'] == b;
          }
        }
      }
    }
  }
}

/** Facts about finite sets that several modules share. */
module Collections {

  /** Some element of a set: rows and map keys come in an order nothing depends on. */
  method Pick<T>(s: set<T>) returns (x: T)
    requires s != {}
    ensures x in s
  {
    x :| x in s;
  }

  lemma {:induction false} SubsetSize<T>(small: set<T>, big: set<T>)
    requires small <= big
    ensures |small| <= |big|
  {
    if small != {} {
      var x :| x in small;
      SubsetSize(small - {x}, big - {x});
    }
  }

  /** A subset of equal size is the whole set. */
  lemma {:induction false} Pigeonhole<T>(all: set<T>, some: set<T>)
    requires some <= all && |some| == |all|
    ensures some == all
  {
    if all != {} {
      var x :| x in all;
      if x in some {
        Pigeonhole(all - {x}, some - {x});
        assert some == some - {x} + {x};
      } else {
        SubsetSize(some, all - {x});
      }
    }
  }

  /** A map that takes no value twice has as many values as keys. */
  lemma {:induction false} InjectiveSize<K, V>(m: map<K, V>)
    requires forall j, k :: j in m && k in m && m[j] == m[k] ==> j == k
    ensures |m.Values| == |m.Keys|
  {
    if m.Keys != {} {
      var k :| k in m.Keys;
      var rest := m - {k};
      InjectiveSize(rest);
      assert m.Keys == rest.Keys + {k};
      assert m.Values == rest.Values + {m[k]} by {
        forall v | v in m.Values
          ensures v in rest.Values + {m[k]}
        {
          var j :| j in m && m[j] == v;
          assert j != k ==> j in rest && rest[j] == v;
        }
      }
    }
  }

  lemma KeyWith<K, V>(m: map<K, V>, v: V) returns (k: K)
    requires v in m.Values
    ensures k in m && m[k] == v
  {
    k :| k in m && m[k] == v;
  }

  /** A sequence without repeats is as long as the set of its elements is large. */
  lemma {:induction false} DistinctSize<T>(q: seq<T>, s: set<T>)
    requires forall i, j :: 0 <= i < j < |q| ==> q[i] != q[j]
    requires forall x :: x in q <==> x in s
    ensures |q| == |s|
  {
    if q != [] {
      var n := |q| - 1;
      assert q == q[..n] + [q[n]];
      forall x
        ensures x in q[..n] <==> x in s - {q[n]}
      {
        if x in q[..n] {
          var i :| 0 <= i < n && q[i] == x;
        }
      }
      DistinctSize(q[..n], s - {q[n]});
    } else {
      assert s == {};
    }
  }
}

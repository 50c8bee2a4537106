/** Sums over the values of a map, for the measures that show a run must come to an end. */
module Sums {

  ghost function Total<K(!new)>(m: map<K, nat>): nat
    decreases |m|
  {
    if m == map[] then 0 else var k :| k in m; Less(m, k); m[k] + Total(m - {k})
  }

  lemma Less<K(!new)>(m: map<K, nat>, k: K)
    requires k in m
    ensures |m - {k}| == |m| - 1
  {
    assert (m - {k}).Keys == m.Keys - {k};
  }

  lemma {:induction false} TotalWithout<K(!new)>(m: map<K, nat>, k: K)
    requires k in m
    ensures Total(m) == m[k] + Total(m - {k})
    decreases |m|
  {
    var j :| j in m && Total(m) == m[j] + Total(m - {j});
    if j != k {
      Less(m, j);
      Less(m, k);
      TotalWithout(m - {j}, k);
      TotalWithout(m - {k}, j);
      assert m - {j} - {k} == m - {k} - {j};
    }
  }

  lemma TotalChanged<K(!new)>(m: map<K, nat>, k: K, n: nat)
    ensures Total(m[k := n]) == Total(m) + n - if k in m then m[k] else 0
  {
    TotalWithout(m[k := n], k);
    if k in m {
      TotalWithout(m, k);
      assert m[k := n] - {k} == m - {k};
    } else {
      assert m[k := n] - {k} == m;
    }
  }

  lemma {:induction false} TotalBound<K(!new)>(m: map<K, nat>, most: nat)
    requires forall k :: k in m ==> m[k] <= most
    ensures Total(m) <= |m| * most
    decreases |m|
  {
    if m != map[] {
      var k :| k in m;
      Less(m, k);
      TotalBound(m - {k}, most);
      TotalWithout(m, k);
      OneMore(|m| - 1, most);
    }
  }

  lemma OneMore(n: nat, most: nat)
    ensures n * most + most == (n + 1) * most
  {
  }

  lemma {:induction false} TotalZero<K(!new)>(m: map<K, nat>)
    ensures Total(m) == 0 <==> forall k :: k in m ==> m[k] == 0
    decreases |m|
  {
    if m != map[] {
      var k :| k in m;
      Less(m, k);
      TotalZero(m - {k});
      assert forall j :: j in m <==> j == k || j in m - {k};
      TotalWithout(m, k);
    }
  }
}

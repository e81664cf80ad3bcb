/** Sums of amounts held in maps, the way the Go code adds up costs with `+=`
    while ranging over a map. Amounts are exact reals, so the order in which
    Go visits the keys does not change a sum. */
module Sums {

  /** A map read the way Go reads a `map[string]float64`: a missing key is 0. */
  function Get0(m: map<string, real>, k: string): real {
    if k in m then m[k] else 0.0
  }

  /** The sum of `m` over the keys `ks`. */
  ghost function SumKeys(m: map<string, real>, ks: set<string>): real
    requires ks <= m.Keys
    decreases ks
  {
    if ks == {} then 0.0
    else
      var k :| k in ks;
      m[k] + SumKeys(m, ks - {k})
  }

  /** The sum of every value of `m`. */
  ghost function MapSum(m: map<string, real>): real {
    SumKeys(m, m.Keys)
  }

  /** A sum over keys can be split at any key, whichever one it picked first. */
  lemma {:induction false} SumKeysPick(m: map<string, real>, ks: set<string>, k: string)
    requires ks <= m.Keys && k in ks
    ensures SumKeys(m, ks) == m[k] + SumKeys(m, ks - {k})
    decreases ks
  {
    var j :| j in ks && SumKeys(m, ks) == m[j] + SumKeys(m, ks - {j});
    if j != k {
      SumKeysPick(m, ks - {j}, k);
      SumKeysPick(m, ks - {k}, j);
      assert ks - {j} - {k} == ks - {k} - {j};
    }
  }

  lemma SumKeysAdd(m: map<string, real>, ks: set<string>, k: string)
    requires ks <= m.Keys && k in m && k !in ks
    ensures SumKeys(m, ks + {k}) == SumKeys(m, ks) + m[k]
  {
    SumKeysPick(m, ks + {k}, k);
    assert ks + {k} - {k} == ks;
  }

  lemma {:induction false} SumKeysUnion(m: map<string, real>, a: set<string>, b: set<string>)
    requires a <= m.Keys && b <= m.Keys && a !! b
    ensures SumKeys(m, a + b) == SumKeys(m, a) + SumKeys(m, b)
    decreases b
  {
    if b != {} {
      var k :| k in b;
      SumKeysUnion(m, a, b - {k});
      SumKeysAdd(m, a + (b - {k}), k);
      SumKeysAdd(m, b - {k}, k);
      assert a + (b - {k}) + {k} == a + b;
      assert b - {k} + {k} == b;
    } else {
      assert a + b == a;
    }
  }

  /** Only the values at the summed keys matter. */
  lemma {:induction false} SumKeysAgree(m: map<string, real>, n: map<string, real>, ks: set<string>)
    requires ks <= m.Keys && ks <= n.Keys
    requires forall k :: k in ks ==> m[k] == n[k]
    ensures SumKeys(m, ks) == SumKeys(n, ks)
    decreases ks
  {
    if ks != {} {
      var k :| k in ks;
      SumKeysPick(m, ks, k);
      SumKeysPick(n, ks, k);
      SumKeysAgree(m, n, ks - {k});
    }
  }

  /** Adding `c` to the amount at `k` (Go's `m[k] += c`) adds `c` to the map's sum. */
  lemma MapSumAccumulate(m: map<string, real>, k: string, c: real)
    ensures MapSum(m[k := Get0(m, k) + c]) == MapSum(m) + c
  {
    var n := m[k := Get0(m, k) + c];
    var rest := m.Keys - {k};
    SumKeysAgree(m, n, rest);
    if k in m {
      SumKeysPick(m, m.Keys, k);
      SumKeysPick(n, n.Keys, k);
      assert n.Keys - {k} == rest;
    } else {
      assert m.Keys == rest;
      SumKeysAdd(n, rest, k);
      assert n.Keys == rest + {k};
    }
  }

  lemma MapSumEmpty()
    ensures MapSum(map[]) == 0.0
  {
  }
}

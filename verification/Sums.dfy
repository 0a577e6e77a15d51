/** Sums over the values of a finite map. */
module Sums {

  ghost function Sum(m: map<string, int>): int
    decreases |m|
  {
    if m == map[] then 0
    else
      var k :| k in m;
      m[k] + Sum(m - {k})
  }

  lemma {:induction false} SumRemove(m: map<string, int>, k: string)
    requires k in m
    ensures Sum(m) == m[k] + Sum(m - {k})
    decreases |m|
  {
    var j :| j in m && Sum(m) == m[j] + Sum(m - {j});
    if j != k {
      SumRemove(m - {j}, k);
      SumRemove(m - {k}, j);
      assert m - {j} - {k} == m - {k} - {j};
    }
  }

  lemma SumUpdate(m: map<string, int>, k: string, v: int)
    ensures Sum(m[k := v]) == Sum(m) + v - (if k in m then m[k] else 0)
  {
    SumRemove(m[k := v], k);
    assert m[k := v] - {k} == m - {k};
    if k in m {
      SumRemove(m, k);
    } else {
      assert m - {k} == m;
    }
  }

  // The number of elements held in a map of slices.
  function Lengths<T>(m: map<string, seq<T>>): map<string, int> {
    map k | k in m :: |m[k]|
  }

  ghost function Total<T>(m: map<string, seq<T>>): int {
    Sum(Lengths(m))
  }

  lemma TotalUpdate<T>(m: map<string, seq<T>>, k: string, s: seq<T>)
    ensures Total(m[k := s]) == Total(m) + |s| - (if k in m then |m[k]| else 0)
  {
    assert Lengths(m[k := s]) == Lengths(m)[k := |s|];
    SumUpdate(Lengths(m), k, |s|);
  }

  lemma TotalRemove<T>(m: map<string, seq<T>>, k: string)
    requires k in m
    ensures Total(m - {k}) == Total(m) - |m[k]|
  {
    assert Lengths(m - {k}) == Lengths(m) - {k};
    SumRemove(Lengths(m), k);
  }

  lemma CardInsert<V>(m: map<string, V>, k: string, v: V)
    requires k !in m
    ensures |m[k := v]| == |m| + 1
  {
  }

  lemma CardRemove<V>(m: map<string, V>, k: string)
    requires k in m
    ensures |m - {k}| == |m| - 1
  {
  }

  lemma {:induction false} SumOfZeros(m: map<string, int>)
    requires forall k | k in m :: m[k] == 0
    ensures Sum(m) == 0
    decreases |m|
  {
    if m != map[] {
      var k :| k in m;
      SumRemove(m, k);
      SumOfZeros(m - {k});
    }
  }

  lemma SumOfOne(m: map<string, int>, k: string)
    requires k in m && forall j | j in m && j != k :: m[j] == 0
    ensures Sum(m) == m[k]
  {
    SumRemove(m, k);
    SumOfZeros(m - {k});
  }
}

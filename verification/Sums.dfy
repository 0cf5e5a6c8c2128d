/** Sums over the entries of a map and of a list. */
module Sums {

  ghost function Pick<K>(keys: set<K>): (k: K)
    requires keys != {}
    ensures k in keys
  {
    var k :| k in keys;
    k
  }

  ghost function Total<K>(values: map<K, int>): int
    decreases |values|
  {
    if values.Keys == {} then 0
    else
      var k := Pick(values.Keys);
      Smaller(values, k);
      values[k] + Total(values - {k})
  }

  lemma Smaller<K>(values: map<K, int>, k: K)
    requires k in values
    ensures |values - {k}| < |values|
  {
    assert (values - {k}).Keys == values.Keys - {k};
    assert |values.Keys - {k}| == |values.Keys| - 1;
    assert |(values - {k}).Keys| == |values - {k}| && |values.Keys| == |values|;
  }

  /** Any entry can be taken out of the sum first. */
  lemma {:induction false} TotalRemove<K>(values: map<K, int>, k: K)
    requires k in values
    ensures Total(values) == values[k] + Total(values - {k})
    decreases |values|
  {
    var p := Pick(values.Keys);
    if p != k {
      Smaller(values, p);
      Smaller(values, k);
      TotalRemove(values - {p}, k);
      TotalRemove(values - {k}, p);
      assert values - {p} - {k} == values - {k} - {p};
    }
  }

  function At<K>(values: map<K, int>, k: K): int {
    if k in values then values[k] else 0
  }

  lemma TotalUpdate<K>(values: map<K, int>, k: K, v: int)
    ensures Total(values[k := v]) == Total(values) - At(values, k) + v
  {
    TotalRemove(values[k := v], k);
    assert values[k := v] - {k} == values - {k};
    if k in values {
      TotalRemove(values, k);
    } else {
      assert values - {k} == values;
    }
  }

  lemma {:induction false} TotalAtLeast<K>(values: map<K, int>, k: K)
    requires forall i :: i in values ==> values[i] >= 0
    ensures 0 <= At(values, k) <= Total(values)
    decreases |values|
  {
    if values.Keys != {} {
      var p := Pick(values.Keys);
      Smaller(values, p);
      TotalAtLeast(values - {p}, k);
      if k == p {
        TotalRemove(values, k);
      } else {
        assert At(values, k) == At(values - {p}, k);
      }
    }
  }

  ghost function ListSum(values: seq<int>): int {
    if values == [] then 0 else ListSum(values[..|values| - 1]) + values[|values| - 1]
  }

  lemma {:induction false} ListSumUpdate(values: seq<int>, i: nat, v: int)
    requires i < |values|
    ensures ListSum(values[i := v]) == ListSum(values) - values[i] + v
  {
    var last := |values| - 1;
    if i == last {
      assert values[i := v][..last] == values[..last];
    } else {
      assert values[i := v][..last] == values[..last][i := v];
      ListSumUpdate(values[..last], i, v);
    }
  }

  lemma {:induction false} ListSumAtLeast(values: seq<int>, i: nat)
    requires i < |values| && forall k :: 0 <= k < |values| ==> values[k] >= 0
    ensures 0 <= values[i] <= ListSum(values)
  {
    var last := |values| - 1;
    if last == 0 {
      assert values[..last] == [];
    } else if i < last {
      ListSumAtLeast(values[..last], i);
    } else {
      ListSumAtLeast(values[..last], 0);
    }
  }
}

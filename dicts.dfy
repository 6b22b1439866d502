/** Python's insertion-ordered `dict` with string keys, as a value: the keys
    in insertion order beside the mapping itself. The generator draws from
    `list(d.keys())`, so the order is part of what the model must keep. */
module Dicts {

  datatype Dict<V> = Dict(keys: seq<string>, at: map<string, V>)

  /** No key listed twice, and the listed keys are exactly the mapped ones. */
  predicate Valid<V>(d: Dict<V>) {
    && (forall i, j :: 0 <= i < j < |d.keys| ==> d.keys[i] != d.keys[j])
    && (forall k :: k in d.at ==> k in d.keys)
    && (forall i :: 0 <= i < |d.keys| ==> d.keys[i] in d.at)
  }

  function Empty<V>(): (r: Dict<V>)
    ensures Valid(r) && r.keys == [] && r.at == map[]
  {
    Dict([], map[])
  }

  /** `d.setdefault(k, v)`: an absent key is appended with value `v`; a present
      key keeps its value and its position. */
  function SetDefault<V>(d: Dict<V>, k: string, v: V): (r: Dict<V>)
    ensures Valid(d) ==> Valid(r)
    ensures k in d.at ==> r == d
    ensures k !in d.at ==> r.keys == d.keys + [k] && r.at == d.at[k := v]
  {
    if k in d.at then d else Dict(d.keys + [k], d.at[k := v])
  }

  /** `d[k] = v` for a key already present: the order of the keys is unchanged. */
  function Put<V>(d: Dict<V>, k: string, v: V): (r: Dict<V>)
    requires k in d.at
    ensures Valid(d) ==> Valid(r)
    ensures r.keys == d.keys && r.at == d.at[k := v]
  {
    Dict(d.keys, d.at[k := v])
  }

  /** `[d[k] for k in d.keys()]`: the values in key order. */
  function Values<V>(d: Dict<V>): (r: seq<V>)
    requires Valid(d)
    ensures |r| == |d.keys|
    ensures forall i :: 0 <= i < |r| ==> r[i] == d.at[d.keys[i]]
  {
    seq(|d.keys|, i requires 0 <= i < |d.keys| => d.at[d.keys[i]])
  }

  function Sum(w: seq<nat>): nat {
    if w == [] then 0 else w[0] + Sum(w[1..])
  }

  lemma {:induction false} SumAppend(w: seq<nat>, x: nat)
    ensures Sum(w + [x]) == Sum(w) + x
  {
    if w != [] {
      assert (w + [x])[1..] == w[1..] + [x];
      SumAppend(w[1..], x);
    }
  }

  lemma {:induction false} SumUpdate(w: seq<nat>, i: nat, x: nat)
    requires i < |w|
    ensures Sum(w[i := x]) + w[i] == Sum(w) + x
  {
    if i > 0 {
      assert w[i := x][1..] == w[1..][i - 1 := x];
      SumUpdate(w[1..], i - 1, x);
    }
  }

  lemma {:induction false} SumConcat(a: seq<nat>, b: seq<nat>)
    ensures Sum(a + b) == Sum(a) + Sum(b)
  {
    if a == [] {
      assert a + b == b;
    } else {
      assert (a + b)[0] == a[0] && (a + b)[1..] == a[1..] + b;
      SumConcat(a[1..], b);
    }
  }

  /** Prefix sums of counts never decrease. */
  lemma PrefixSumMonotone(w: seq<nat>, p: nat, q: nat)
    requires p <= q <= |w|
    ensures Sum(w[..p]) <= Sum(w[..q])
  {
    assert w[..q] == w[..p] + w[p..q];
    SumConcat(w[..p], w[p..q]);
  }

  /** The count-valued dict flavour used for tails: `d.setdefault(k, 0); d[k] += 1`. */
  function Bump(d: Dict<nat>, k: string): (r: Dict<nat>)
    ensures Valid(d) ==> Valid(r)
    ensures k in r.at && r.at[k] == (if k in d.at then d.at[k] else 0) + 1
    ensures forall j :: j in d.at && j != k ==> j in r.at && r.at[j] == d.at[j]
    ensures forall j :: j in r.at ==> j in d.at || j == k
  {
    var e := SetDefault(d, k, 0);
    Put(e, k, e.at[k] + 1)
  }

  /** Bumping a key raises the total of the counts by exactly one. */
  lemma BumpSum(d: Dict<nat>, k: string)
    requires Valid(d)
    ensures Sum(Values(Bump(d, k))) == Sum(Values(d)) + 1
  {
    if k in d.at {
      var i :| 0 <= i < |d.keys| && d.keys[i] == k;
      BumpValuesPresent(d, k, i);
      SumUpdate(Values(d), i, d.at[k] + 1);
    } else {
      BumpValuesAbsent(d, k);
      SumAppend(Values(d), 1);
    }
  }

  /** Bumping a present key raises its own entry of the values in place. */
  lemma BumpValuesPresent(d: Dict<nat>, k: string, i: nat)
    requires Valid(d) && i < |d.keys| && d.keys[i] == k
    ensures Values(Bump(d, k)) == Values(d)[i := d.at[k] + 1]
  {
    var r := Bump(d, k);
    assert r.keys == d.keys;
    assert forall j :: 0 <= j < |d.keys| && j != i ==> d.keys[j] != k;
  }

  /** Bumping an absent key appends a count of one to the values. */
  lemma BumpValuesAbsent(d: Dict<nat>, k: string)
    requires Valid(d) && k !in d.at
    ensures Values(Bump(d, k)) == Values(d) + [1]
  {
    var r := Bump(d, k);
    assert r.keys == d.keys + [k];
  }
}

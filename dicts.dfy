/** A JavaScript object used as a dictionary: the value stored under each key, and
    the keys in the order they were first inserted (the order `Object.keys` and
    `Object.values` list them in). */
module Dicts {
  import opened Seqs

  datatype Dict<V> = Dict(keys: seq<string>, vals: map<string, V>)

  /** Keys are listed once each, and exactly the stored keys are listed. */
  ghost predicate Valid<V>(d: Dict<V>)
  {
    && (forall i, j :: 0 <= i < j < |d.keys| ==> d.keys[i] != d.keys[j])
    && (forall k :: k in d.vals <==> k in d.keys)
  }

  function Empty<V>(): (d: Dict<V>)
    ensures Valid(d) && d.keys == [] && d.vals == map[]
  {
    Dict([], map[])
  }

  /** `d[k] = v`: overwrites the value of a known key, or appends a new key at the end. */
  function Put<V>(d: Dict<V>, k: string, v: V): (r: Dict<V>)
    requires Valid(d)
    ensures Valid(r)
    ensures r.vals == d.vals[k := v]
    ensures r.keys == if k in d.vals then d.keys else d.keys + [k]
  {
    if k in d.vals then Dict(d.keys, d.vals[k := v]) else Dict(d.keys + [k], d.vals[k := v])
  }

  /** The values stored under `keys`, in that order. */
  function ValuesOf<V>(keys: seq<string>, vals: map<string, V>): (vs: seq<V>)
    requires forall i :: 0 <= i < |keys| ==> keys[i] in vals
    ensures |vs| == |keys|
    ensures forall i :: 0 <= i < |keys| ==> vs[i] == vals[keys[i]]
  {
    if keys == [] then [] else [vals[keys[0]]] + ValuesOf(keys[1..], vals)
  }

  /** `Object.values(d)`. */
  function Values<V>(d: Dict<V>): (vs: seq<V>)
    requires Valid(d)
    ensures |vs| == |d.keys|
    ensures forall i :: 0 <= i < |d.keys| ==> vs[i] == d.vals[d.keys[i]]
  {
    ValuesOf(d.keys, d.vals)
  }

  /** `keys.map(k => mk(k, vals[k]))`, skipping keys without a value. */
  function EntriesOf<V, R>(keys: seq<string>, vals: map<string, V>, mk: (string, V) -> R): (rs: seq<R>)
    ensures (forall i :: 0 <= i < |keys| ==> keys[i] in vals) ==>
      |rs| == |keys| && forall i :: 0 <= i < |keys| ==> rs[i] == mk(keys[i], vals[keys[i]])
  {
    if keys == [] then []
    else (if keys[0] in vals then [mk(keys[0], vals[keys[0]])] else []) + EntriesOf(keys[1..], vals, mk)
  }

  /** Sum of `f` over the values stored under `keys`. */
  function SumOver<V>(keys: seq<string>, vals: map<string, V>, f: V -> real): real
    requires forall i :: 0 <= i < |keys| ==> keys[i] in vals
  {
    if keys == [] then 0.0 else f(vals[keys[0]]) + SumOver(keys[1..], vals, f)
  }

  /** Sum of `f` over every value of the dictionary. */
  function Total<V>(d: Dict<V>, f: V -> real): real
    requires Valid(d)
  {
    SumOver(d.keys, d.vals, f)
  }

  lemma {:induction false} SumOverAppend<V>(keys: seq<string>, vals: map<string, V>, k: string, f: V -> real)
    requires forall i :: 0 <= i < |keys| ==> keys[i] in vals
    requires k in vals
    ensures SumOver(keys + [k], vals, f) == SumOver(keys, vals, f) + f(vals[k])
  {
    if keys != [] {
      assert (keys + [k])[1..] == keys[1..] + [k];
      SumOverAppend(keys[1..], vals, k, f);
    } else {
      assert (keys + [k])[1..] == [];
    }
  }

  lemma {:induction false} SumOverUpdate<V>(keys: seq<string>, vals: map<string, V>, k: string, v: V, f: V -> real)
    requires forall i :: 0 <= i < |keys| ==> keys[i] in vals
    requires forall i, j :: 0 <= i < j < |keys| ==> keys[i] != keys[j]
    ensures SumOver(keys, vals[k := v], f)
         == SumOver(keys, vals, f) + (if k in keys then f(v) - f(vals[k]) else 0.0)
  {
    if keys != [] {
      assert forall i, j :: 0 <= i < j < |keys[1..]| ==> keys[1..][i] != keys[1..][j] by {
        forall i, j | 0 <= i < j < |keys[1..]| ensures keys[1..][i] != keys[1..][j] {
          assert keys[1..][i] == keys[i + 1] && keys[1..][j] == keys[j + 1];
        }
      }
      SumOverUpdate(keys[1..], vals, k, v, f);
      if keys[0] == k {
        assert k !in keys[1..] by {
          forall i | 0 <= i < |keys[1..]| ensures keys[1..][i] != k {
            assert keys[1..][i] == keys[i + 1];
          }
        }
      }
      assert k in keys <==> keys[0] == k || k in keys[1..];
    }
  }

  /** Storing `v` under `k` changes the dictionary's total by the difference it makes at `k`. */
  lemma PutTotal<V>(d: Dict<V>, k: string, v: V, f: V -> real)
    requires Valid(d)
    ensures Total(Put(d, k, v), f)
         == Total(d, f) + f(v) - (if k in d.vals then f(d.vals[k]) else 0.0)
  {
    SumOverUpdate(d.keys, d.vals, k, v, f);
    if k !in d.vals {
      SumOverAppend(d.keys, d.vals[k := v], k, f);
    }
  }

  /** Summing `f` over the rows made from the entries is summing `g` over the
      values, when `f` of a row is `g` of the value it was made from. */
  lemma {:induction false} SumEntries<V, R>(keys: seq<string>, vals: map<string, V>, mk: (string, V) -> R,
                                            f: R -> real, g: V -> real)
    requires forall i :: 0 <= i < |keys| ==> keys[i] in vals
    requires forall k, v :: f(mk(k, v)) == g(v)
    ensures SumBy(EntriesOf(keys, vals, mk), f) == SumOver(keys, vals, g)
  {
    if keys != [] {
      SumEntries(keys[1..], vals, mk, f, g);
      var rs := EntriesOf(keys, vals, mk);
      assert rs[1..] == EntriesOf(keys[1..], vals, mk);
    }
  }
}

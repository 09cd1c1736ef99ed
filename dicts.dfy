/**
 * Python's insertion-ordered `dict` with string keys, as a sequence of
 * key/value pairs: `d[k] = v`, `d.get(k)`, `d.update(o)` and `d.keys()`.
 */
module Dicts {
  import opened Base

  type Dict<V> = seq<(string, V)>

  /** `list(d.keys())`, in insertion order. */
  function Keys<V>(d: Dict<V>): (ks: seq<string>)
    ensures |ks| == |d|
  {
    if d == [] then [] else [d[0].0] + Keys(d[1..])
  }

  /** No key is bound twice, as in every Python dict. */
  predicate UniqueKeys<V>(d: Dict<V>) {
    d == [] || (d[0].0 !in Keys(d[1..]) && UniqueKeys(d[1..]))
  }

  /** `d.get(k)`: the value bound to `k`, if any. */
  function Get<V>(d: Dict<V>, k: string): (r: Option<V>)
    ensures r.Some? <==> k in Keys(d)
    ensures r.Some? ==> (k, r.value) in d
  {
    if d == [] then None
    else if d[0].0 == k then Some(d[0].1)
    else Get(d[1..], k)
  }

  /** `d[k] = v`: an existing key keeps its position, a new one goes last. */
  function Set<V>(d: Dict<V>, k: string, v: V): (r: Dict<V>)
    ensures Get(r, k) == Some(v)
    ensures forall x :: x != k ==> Get(r, x) == Get(d, x)
    ensures forall x :: x in Keys(r) <==> x in Keys(d) || x == k
    ensures k in Keys(d) ==> Keys(r) == Keys(d)
    ensures k !in Keys(d) ==> r == d + [(k, v)]
    ensures UniqueKeys(d) ==> UniqueKeys(r)
  {
    if d == [] then [(k, v)]
    else if d[0].0 == k then [(k, v)] + d[1..]
    else
      var rest := Set(d[1..], k, v);
      assert ([d[0]] + rest)[1..] == rest;
      [d[0]] + rest
  }

  /**
   * `d.update(o)`: every binding of `o`, in order, written with `Set`.
   * The keys of `d` stay first and in their order; a key of `o` that `d`
   * lacks is added after them; on a shared key `o`'s value wins.
   */
  function Update<V>(d: Dict<V>, o: Dict<V>): (r: Dict<V>)
    ensures |d| <= |r| && Keys(r)[..|d|] == Keys(d)
    ensures forall x :: x in Keys(r) <==> x in Keys(d) || x in Keys(o)
    ensures UniqueKeys(d) ==> UniqueKeys(r)
    ensures UniqueKeys(o) ==> forall x :: Get(r, x) == if x in Keys(o) then Get(o, x) else Get(d, x)
    decreases |o|
  {
    if o == [] then d
    else
      var d' := Set(d, o[0].0, o[0].1);
      assert Keys(d')[..|d|] == Keys(d) by {
        if o[0].0 !in Keys(d) {
          KeysAppend(d, (o[0].0, o[0].1));
        }
      }
      var r := Update(d', o[1..]);
      assert Keys(r)[..|d|] == Keys(r)[..|d'|][..|d|];
      r
  }

  lemma {:induction false} KeysAppend<V>(d: Dict<V>, p: (string, V))
    ensures Keys(d + [p]) == Keys(d) + [p.0]
  {
    if d != [] {
      assert (d + [p])[1..] == d[1..] + [p];
      KeysAppend(d[1..], p);
    }
  }

  /** A key that no binding carries is not found. */
  lemma {:induction false} GetAbsent<V>(d: Dict<V>, k: string)
    requires forall i :: 0 <= i < |d| ==> d[i].0 != k
    ensures Get(d, k) == None
  {
    if d != [] {
      assert forall i :: 0 <= i < |d[1..]| ==> d[1..][i] == d[i + 1];
      GetAbsent(d[1..], k);
    }
  }

  /** No value is bound under two positions. */
  predicate ValuesDistinct<V(==)>(d: Dict<V>) {
    forall i, j :: 0 <= i < j < |d| ==> d[i].1 != d[j].1
  }

  /** With distinct values, a found value determines its key. */
  lemma GetInjective<V>(d: Dict<V>, k1: string, k2: string)
    requires ValuesDistinct(d) && Get(d, k1).Some? && Get(d, k1) == Get(d, k2)
    ensures k1 == k2
  {
    var v := Get(d, k1).value;
    var i :| 0 <= i < |d| && d[i] == (k1, v);
    var j :| 0 <= j < |d| && d[j] == (k2, v);
    assert i == j;
  }
}

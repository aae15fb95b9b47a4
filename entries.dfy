/**
 * A JavaScript plain object used as a dictionary: its entries in insertion order,
 * as `Object.entries` yields them. Assigning `obj[k] = v` replaces the value of
 * an existing key in place and appends a new key at the end.
 */
module Entries {
  import opened JsValues

  type Entries<V> = seq<(string, V)>

  function Keys<V>(o: Entries<V>): set<string>
    decreases |o|
  {
    if o == [] then {} else {o[0].0} + Keys(o[1..])
  }

  /** No key occurs twice, as in every JavaScript object. */
  predicate DistinctKeys<V>(o: Entries<V>)
  {
    forall i, j :: 0 <= i < j < |o| ==> o[i].0 != o[j].0
  }

  /** `obj[k]`, with `None` for a missing key. */
  function Get<V>(o: Entries<V>, k: string): (r: Option<V>)
    ensures r.Some? <==> k in Keys(o)
    decreases |o|
  {
    if o == [] then None else if o[0].0 == k then Some(o[0].1) else Get(o[1..], k)
  }

  /** `obj[k] = v`. */
  function Put<V>(o: Entries<V>, k: string, v: V): (r: Entries<V>)
    ensures Get(r, k) == Some(v)
    ensures forall k' :: k' != k ==> Get(r, k') == Get(o, k')
    ensures Keys(r) == Keys(o) + {k}
    ensures k !in Keys(o) ==> r == o + [(k, v)]
    ensures DistinctKeys(o) ==> DistinctKeys(r)
    decreases |o|
  {
    if o == [] then [(k, v)]
    else if o[0].0 == k then [(k, v)] + o[1..]
    else
      var rest := Put(o[1..], k, v);
      if DistinctKeys(o) then
        KeysAt(o[1..]);
        ConsDistinct(o[0], rest);
        [o[0]] + rest
      else
        [o[0]] + rest
  }

  /** An entry whose key is new keeps the keys distinct when put in front. */
  lemma ConsDistinct<V>(e: (string, V), o: Entries<V>)
    requires e.0 !in Keys(o) && DistinctKeys(o)
    ensures DistinctKeys([e] + o)
  {
    KeysAt(o);
  }

  /** Every key is the key of some entry, and conversely. */
  lemma {:induction false} KeysAt<V>(o: Entries<V>)
    ensures forall i :: 0 <= i < |o| ==> o[i].0 in Keys(o)
    ensures forall k :: k in Keys(o) ==> exists i :: 0 <= i < |o| && o[i].0 == k
    decreases |o|
  {
    if o != [] {
      KeysAt(o[1..]);
      forall k | k in Keys(o) ensures exists i :: 0 <= i < |o| && o[i].0 == k {
        if k != o[0].0 {
          var i :| 0 <= i < |o[1..]| && o[1..][i].0 == k;
          assert o[i + 1].0 == k;
        }
      }
    }
  }

  /** In an object with distinct keys, looking up the key of an entry finds that entry's value. */
  lemma {:induction false} GetAt<V>(o: Entries<V>, i: nat)
    requires DistinctKeys(o) && i < |o|
    ensures Get(o, o[i].0) == Some(o[i].1)
    decreases |o|
  {
    if i > 0 {
      GetAt(o[1..], i - 1);
    }
  }
}

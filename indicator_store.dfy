/**
 * The EconomicIndicator collection as the upsert paths see it: one record per
 * natural key, written by `findOneAndUpdate(..., {upsert: true})` in the scheduler
 * and by `bulkWrite` of `updateOne` upserts in the adapters. Both write `$set` of
 * an observation's fields onto the matching document, or onto the schema
 * defaults when none matches. The alert collection is the sequence of created
 * alerts; an alert's id is its position in it.
 */
module IndicatorStore {
  import opened JsValues
  import opened IndicatorModel
  import AlertModel

  type Store = map<Key, IndicatorRecord>

  /** The document an upsert on `k` starts from: the stored one, or the schema defaults. */
  function BaseFor(st: Store, k: Key): IndicatorRecord
  {
    if k in st then st[k] else Defaults
  }

  /** One upsert of `o` on its natural key. */
  function Upsert(st: Store, o: Observation): (r: Store)
    ensures r.Keys == st.Keys + {KeyOf(o)}
    ensures r[KeyOf(o)] == Overlay(BaseFor(st, KeyOf(o)), o)
    ensures forall k :: k in st && k != KeyOf(o) ==> r[k] == st[k]
  {
    st[KeyOf(o) := Overlay(BaseFor(st, KeyOf(o)), o)]
  }

  /** A batch of upserts applied in order. */
  function ApplyUpserts(st: Store, os: seq<Observation>): Store
    decreases |os|
  {
    if os == [] then st else Upsert(ApplyUpserts(st, os[..|os| - 1]), os[|os| - 1])
  }

  /** Appending one observation to a batch adds one upsert at the end. */
  lemma ApplyUpsertsSnoc(st: Store, os: seq<Observation>, o: Observation)
    ensures ApplyUpserts(st, os + [o]) == Upsert(ApplyUpserts(st, os), o)
  {
    SnocParts(os, o);
  }

  lemma SnocParts<T>(xs: seq<T>, x: T)
    ensures |xs + [x]| - 1 == |xs| && (xs + [x])[..|xs|] == xs && (xs + [x])[|xs|] == x
  {
  }

  /** The keys a batch writes, in batch order. */
  function BatchKeys(os: seq<Observation>): (ks: seq<Key>)
    ensures |ks| == |os| && forall i :: 0 <= i < |os| ==> ks[i] == KeyOf(os[i])
  {
    seq(|os|, i requires 0 <= i < |os| => KeyOf(os[i]))
  }

  /** The position of the last occurrence of `x` in `xs`. */
  function LastIndex<T(==)>(xs: seq<T>, x: T): (r: Option<nat>)
    ensures r.Some? ==> r.value < |xs| && xs[r.value] == x
    ensures r.Some? ==> forall j :: r.value < j < |xs| ==> xs[j] != x
    ensures r.None? ==> forall j :: 0 <= j < |xs| ==> xs[j] != x
    decreases |xs|
  {
    if xs == [] then None
    else if xs[|xs| - 1] == x then Some(|xs| - 1)
    else LastIndex(xs[..|xs| - 1], x)
  }

  /** The position of the last observation in `os` whose key is `k`. */
  function LastFor(os: seq<Observation>, k: Key): (r: Option<nat>)
    ensures r.Some? ==> r.value < |os| && KeyOf(os[r.value]) == k
    ensures r.Some? ==> forall j :: r.value < j < |os| ==> KeyOf(os[j]) != k
    ensures r.None? ==> forall j :: 0 <= j < |os| ==> KeyOf(os[j]) != k
  {
    LastIndex(BatchKeys(os), k)
  }

  /**
   * Last writer wins: after a batch, a touched key holds the fields of the last
   * observation with that key (over whatever isProjected/confidence it had), and
   * an untouched key is exactly as before.
   */
  lemma {:induction false} ApplyUpsertsAt(st: Store, os: seq<Observation>, k: Key)
    ensures k in ApplyUpserts(st, os) <==> k in st || LastFor(os, k).Some?
    ensures LastFor(os, k).None? && k in st ==> ApplyUpserts(st, os)[k] == st[k]
    ensures LastFor(os, k).Some? ==>
              ApplyUpserts(st, os)[k] == Overlay(BaseFor(st, k), os[LastFor(os, k).value])
    decreases |os|
  {
    if os != [] {
      var init := os[..|os| - 1];
      var last := os[|os| - 1];
      assert BatchKeys(os)[..|os| - 1] == BatchKeys(init);
      ApplyUpsertsAt(st, init, k);
      var before := ApplyUpserts(st, init);
      assert ApplyUpserts(st, os) == Upsert(before, last);
      if KeyOf(last) == k {
        assert LastFor(os, k) == Some(|os| - 1);
        var prior := if LastFor(init, k).Some? then Some(init[LastFor(init, k).value]) else None;
        UpsertSameKey(st, before, prior, last);
      } else {
        assert LastFor(os, k) == LastFor(init, k);
        if LastFor(init, k).Some? {
          assert os[LastFor(init, k).value] == init[LastFor(init, k).value];
        }
      }
    }
  }

  /**
   * Upserting `last` over a store in which its key holds the overlay of the
   * earlier observation `prior` (or, with no earlier one, what `st` held)
   * gives the overlay of `last` on what `st` held.
   */
  lemma UpsertSameKey(st: Store, before: Store, prior: Option<Observation>, last: Observation)
    requires prior.Some? ==> KeyOf(last) in before &&
                             before[KeyOf(last)] == Overlay(BaseFor(st, KeyOf(last)), prior.value)
    requires prior.None? ==> (KeyOf(last) in before <==> KeyOf(last) in st)
    requires prior.None? && KeyOf(last) in st ==> before[KeyOf(last)] == st[KeyOf(last)]
    ensures Upsert(before, last)[KeyOf(last)] == Overlay(BaseFor(st, KeyOf(last)), last)
  {
    if prior.Some? {
      OverlayTwice(BaseFor(st, KeyOf(last)), prior.value, last);
    }
  }

  /** Replaying a batch on the store it produced changes nothing. */
  lemma ApplyUpsertsIdempotent(st: Store, os: seq<Observation>)
    ensures ApplyUpserts(ApplyUpserts(st, os), os) == ApplyUpserts(st, os)
  {
    var once := ApplyUpserts(st, os);
    var twice := ApplyUpserts(once, os);
    forall k | true
      ensures k in twice <==> k in once
      ensures k in once ==> twice[k] == once[k]
    {
      ApplyUpsertsAt(st, os, k);
      ApplyUpsertsAt(once, os, k);
      if LastFor(os, k).Some? {
        OverlayTwice(BaseFor(st, k), os[LastFor(os, k).value], os[LastFor(os, k).value]);
      }
    }
  }

  /** Every record is stored under its own natural key. */
  predicate KeyedByNaturalKey(st: Store)
  {
    forall k :: k in st ==> RecordKey(st[k]) == k
  }

  /** Upserts keep every record under its own natural key, so no key is ever duplicated. */
  lemma {:induction false} ApplyUpsertsKeepsKeying(st: Store, os: seq<Observation>)
    requires KeyedByNaturalKey(st)
    ensures KeyedByNaturalKey(ApplyUpserts(st, os))
    decreases |os|
  {
    if os != [] {
      ApplyUpsertsKeepsKeying(st, os[..|os| - 1]);
    }
  }

  /** The two collections the pipeline writes. */
  class Database {
    var indicators: Store
    var alerts: seq<AlertModel.Alert>

    constructor ()
      ensures indicators == map[] && alerts == []
    {
      indicators := map[];
      alerts := [];
    }
  }
}

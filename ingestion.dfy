/**
 * What the World Bank and IMF adapters share: prefix-table categorisation, the
 * save path (drop records without a numeric value, then one `updateOne` upsert
 * per record on the natural key in a single ordered `bulkWrite`), and the
 * per-indicator sync loop that records a failure and carries on.
 */
module Ingestion {
  import opened JsValues
  import opened Text
  import opened IndicatorModel
  import opened IndicatorStore

  /** An HTTP GET: the URL and its query parameters, in order. */
  datatype Request = Request(url: string, params: seq<(string, string)>)

  /** What `saveIndicators` resolves to. */
  datatype SaveResult = SaveResult(inserted: nat, errors: nat)

  /**
   * The database's answer to an ordered `bulkWrite`: acknowledged with the
   * reported `upsertedCount + modifiedCount`, or aborted with a message after
   * the first `written` operations were applied.
   */
  datatype BulkReply = Acknowledged(count: nat) | Aborted(written: nat, message: string)

  /**
   * One entry of a sync's result list: a success with the number of records
   * fetched (`recordsProcessed`, reported by the controller loops) and the
   * save's count, or a failure with the error's message.
   */
  datatype SyncResult = Synced(indicator: string, processed: nat, count: nat) | SyncFailed(indicator: string, error: string)

  // ---------------------------------------------------------------------------
  // Prefix-table categorisation

  /** The category of the first entry, in table order, whose prefix starts `code`; 'Other' when none does. */
  function FirstPrefix(table: seq<(string, string)>, code: string): string
    decreases |table|
  {
    if table == [] then "Other"
    else if StartsWith(code, table[0].0) then table[0].1
    else FirstPrefix(table[1..], code)
  }

  /** The first matching entry wins; with no match the result is 'Other'. */
  lemma {:induction false} FirstPrefixFirstMatch(table: seq<(string, string)>, code: string, i: nat)
    requires i < |table| && StartsWith(code, table[i].0)
    requires forall j :: 0 <= j < i ==> !StartsWith(code, table[j].0)
    ensures FirstPrefix(table, code) == table[i].1
    decreases i
  {
    if i > 0 {
      assert !StartsWith(code, table[0].0);
      FirstPrefixFirstMatch(table[1..], code, i - 1);
    }
  }

  lemma {:induction false} FirstPrefixNoMatch(table: seq<(string, string)>, code: string)
    requires forall j :: 0 <= j < |table| ==> !StartsWith(code, table[j].0)
    ensures FirstPrefix(table, code) == "Other"
    decreases |table|
  {
    if table != [] {
      assert !StartsWith(code, table[0].0);
      FirstPrefixNoMatch(table[1..], code);
    }
  }

  /** The result is 'Other' or the category of some entry whose prefix starts `code`. */
  lemma {:induction false} FirstPrefixFrom(table: seq<(string, string)>, code: string)
    ensures FirstPrefix(table, code) == "Other" ||
            exists j :: 0 <= j < |table| && StartsWith(code, table[j].0) && FirstPrefix(table, code) == table[j].1
    decreases |table|
  {
    if table != [] && !StartsWith(code, table[0].0) {
      FirstPrefixFrom(table[1..], code);
      if FirstPrefix(table, code) != "Other" {
        var j :| 0 <= j < |table[1..]| && StartsWith(code, table[1..][j].0) && FirstPrefix(table[1..], code) == table[1..][j].1;
        assert table[j + 1] == table[1..][j];
      }
    }
  }

  /** The categoriser's scan over the table, returning at the first match. */
  method MatchPrefix(table: seq<(string, string)>, code: string) returns (category: string)
    ensures category == FirstPrefix(table, code)
  {
    for i := 0 to |table|
      invariant FirstPrefix(table[i..], code) == FirstPrefix(table, code)
    {
      assert table[i..][1..] == table[i + 1..];
      if StartsWith(code, table[i].0) {
        return table[i].1;
      }
    }
    category := "Other";
  }

  // ---------------------------------------------------------------------------
  // Saving

  /** Both adapters' save filters keep a record exactly when its value is a number (see the adapters' filter lemmas). */
  predicate Saveable(o: Observation)
  {
    o.value.Num?
  }

  /** The records `saveIndicators` keeps, in order. */
  function ValidIndicators(os: seq<Observation>): (r: seq<Observation>)
    ensures |r| <= |os|
    decreases |os|
  {
    if os == [] then []
    else
      var init := ValidIndicators(os[..|os| - 1]);
      if Saveable(os[|os| - 1]) then init + [os[|os| - 1]] else init
  }

  /** A record is kept iff it is in the input and saveable. */
  lemma {:induction false} ValidIndicatorsMembers(os: seq<Observation>, o: Observation)
    ensures o in ValidIndicators(os) <==> o in os && Saveable(o)
    decreases |os|
  {
    if os != [] {
      var init := os[..|os| - 1];
      ValidIndicatorsMembers(init, o);
      assert os == init + [os[|os| - 1]];
    }
  }

  /** Filtering is order-preserving: it distributes over concatenation. */
  lemma {:induction false} ValidIndicatorsAppend(a: seq<Observation>, b: seq<Observation>)
    ensures ValidIndicators(a + b) == ValidIndicators(a) + ValidIndicators(b)
    decreases |b|
  {
    if b == [] {
      assert a + b == a;
    } else {
      assert (a + b)[..|a + b| - 1] == a + b[..|b| - 1];
      ValidIndicatorsAppend(a, b[..|b| - 1]);
    }
  }

  /** A list that is all saveable passes the filter unchanged. */
  lemma {:induction false} ValidIndicatorsKeepsSaveable(os: seq<Observation>)
    requires forall i :: 0 <= i < |os| ==> Saveable(os[i])
    ensures ValidIndicators(os) == os
    decreases |os|
  {
    if os != [] {
      ValidIndicatorsKeepsSaveable(os[..|os| - 1]);
    }
  }

  /** The prefix of the batch an ordered `bulkWrite` applied before answering. */
  function Applied(ops: seq<Observation>, reply: BulkReply): (r: seq<Observation>)
    ensures |r| <= |ops| && r == ops[..|r|]
    ensures reply.Acknowledged? ==> r == ops
  {
    match reply
    case Acknowledged(_) => ops
    case Aborted(w, _) => ops[..if w <= |ops| then w else |ops|]
  }

  /** `saveIndicators(indicators)` on the store `st`: the new store and what the call resolves or throws. */
  function Save(st: Store, indicators: seq<Observation>, reply: BulkReply): (r: (Store, Result<SaveResult>))
    ensures ValidIndicators(indicators) == [] ==> r == (st, Ok(SaveResult(0, 0)))
    ensures ValidIndicators(indicators) != [] ==>
              r.0 == ApplyUpserts(st, Applied(ValidIndicators(indicators), reply))
    ensures r.1.Ok? ==> r.1.value.errors == 0
    ensures ValidIndicators(indicators) != [] && reply.Aborted? ==> r.1 == Err(reply.message)
  {
    var valid := ValidIndicators(indicators);
    if valid == [] then (st, Ok(SaveResult(0, 0)))
    else
      var written := ApplyUpserts(st, Applied(valid, reply));
      match reply
      case Acknowledged(n) => (written, Ok(SaveResult(n, 0)))
      case Aborted(_, msg) => (written, Err(msg))
  }

  /** `saveIndicators(indicators)`: filter, then one ordered `bulkWrite` of upserts. */
  method SaveIndicators(db: Database, indicators: seq<Observation>, reply: BulkReply) returns (r: Result<SaveResult>)
    modifies db
    ensures (db.indicators, r) == Save(old(db.indicators), indicators, reply)
    ensures db.alerts == old(db.alerts)
  {
    var valid := ValidIndicators(indicators);
    if |valid| == 0 {
      return Ok(SaveResult(0, 0));
    }
    db.indicators := ApplyUpserts(db.indicators, Applied(valid, reply));
    match reply {
      case Acknowledged(n) => r := Ok(SaveResult(n, 0));
      case Aborted(_, msg) => r := Err(msg);
    }
  }

  /**
   * An acknowledged save leaves, at every key, the fields of the last saveable
   * record with that key; keys no saveable record carries are unchanged.
   */
  lemma SaveLastWriterWins(st: Store, indicators: seq<Observation>, n: nat, k: Key)
    ensures var valid := ValidIndicators(indicators);
            var s := Save(st, indicators, Acknowledged(n)).0;
            && (LastFor(valid, k).None? && k in st ==> k in s && s[k] == st[k])
            && (LastFor(valid, k).None? && k !in st ==> k !in s)
            && (LastFor(valid, k).Some? ==> k in s && s[k] == Overlay(BaseFor(st, k), valid[LastFor(valid, k).value]))
  {
    ApplyUpsertsAt(st, ValidIndicators(indicators), k);
  }

  /** Saving the same records twice gives the store that saving them once gives. */
  lemma SaveTwice(st: Store, indicators: seq<Observation>, n1: nat, n2: nat)
    ensures var once := Save(st, indicators, Acknowledged(n1)).0;
            Save(once, indicators, Acknowledged(n2)).0 == once
  {
    ApplyUpsertsIdempotent(st, ValidIndicators(indicators));
  }

  // ---------------------------------------------------------------------------
  // The per-indicator sync loop

  /** The outcome of one indicator: fetch, then save; either step's exception becomes a failure entry. */
  function SyncOne(st: Store, code: string, fetched: Result<seq<Observation>>, reply: BulkReply): (r: (Store, SyncResult))
    ensures r.1.indicator == code
    ensures fetched.Err? ==> r == (st, SyncFailed(code, fetched.error))
  {
    match fetched
    case Err(e) => (st, SyncFailed(code, e))
    case Ok(data) =>
      var (s, saved) := Save(st, data, reply);
      (s, match saved
          case Ok(sr) => Synced(code, |data|, sr.inserted)
          case Err(e) => SyncFailed(code, e))
  }

  /**
   * `syncKeyIndicators` over `indicators`: `fetch(code)` is what
   * `fetchIndicatorData` returns or throws for `code`, `reply(code)` the
   * database's answer to that indicator's `bulkWrite`.
   */
  function SyncAll(st: Store, indicators: seq<string>, fetch: string -> Result<seq<Observation>>,
                   reply: string -> BulkReply): (r: (Store, seq<SyncResult>))
    ensures |r.1| == |indicators|
    decreases |indicators|
  {
    if indicators == [] then (st, [])
    else
      var prev := SyncAll(st, indicators[..|indicators| - 1], fetch, reply);
      var code := indicators[|indicators| - 1];
      var one := SyncOne(prev.0, code, fetch(code), reply(code));
      (one.0, prev.1 + [one.1])
  }

  /** The indicator names of a result list, in order. */
  function IndicatorsOf(rs: seq<SyncResult>): (names: seq<string>)
    ensures |names| == |rs|
    decreases |rs|
  {
    if rs == [] then [] else IndicatorsOf(rs[..|rs| - 1]) + [rs[|rs| - 1].indicator]
  }

  /** Exactly one result per indicator, in the order given: a failure never stops the loop. */
  lemma {:induction false} SyncAllCoversAll(st: Store, indicators: seq<string>, fetch: string -> Result<seq<Observation>>,
                                            reply: string -> BulkReply)
    ensures IndicatorsOf(SyncAll(st, indicators, fetch, reply).1) == indicators
    decreases |indicators|
  {
    if indicators != [] {
      var init := indicators[..|indicators| - 1];
      var rs := SyncAll(st, indicators, fetch, reply).1;
      SyncAllCoversAll(st, init, fetch, reply);
      assert rs[..|rs| - 1] == SyncAll(st, init, fetch, reply).1;
      assert indicators == init + [indicators[|indicators| - 1]];
    }
  }

  /** When every fetch fails, nothing is written and every entry is a failure. */
  lemma {:induction false} SyncAllFetchFailures(st: Store, indicators: seq<string>, fetch: string -> Result<seq<Observation>>,
                                                reply: string -> BulkReply)
    requires forall i :: 0 <= i < |indicators| ==> fetch(indicators[i]).Err?
    ensures SyncAll(st, indicators, fetch, reply).0 == st
    ensures forall i :: 0 <= i < |indicators| ==> SyncAll(st, indicators, fetch, reply).1[i].SyncFailed?
    decreases |indicators|
  {
    if indicators != [] {
      var init := indicators[..|indicators| - 1];
      SyncAllFetchFailures(st, init, fetch, reply);
      var prev := SyncAll(st, init, fetch, reply);
      var rs := SyncAll(st, indicators, fetch, reply).1;
      assert rs == prev.1 + [SyncFailed(indicators[|indicators| - 1], fetch(indicators[|indicators| - 1]).error)];
    }
  }
}

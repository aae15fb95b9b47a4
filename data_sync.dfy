/**
 * The daily scheduler job: fetch the World Bank and IMF batches, upsert every
 * item of the combined batch in order, and create a threshold alert after each
 * upsert whose item breaches its indicator's alert threshold. Any exception (a
 * failed fetch, a refused upsert, an alert the Alert schema rejects) ends the
 * run where it happened; everything written before that point stays written.
 */
module DataSync {
  import opened JsValues
  import opened Text
  import opened IndicatorModel
  import opened IndicatorStore
  import AlertModel

  /** The scheduler's alert thresholds, keyed by the exact indicator code of an item. */
  const AlertThresholds: map<string, real> := map[
    "GDP_GROWTH" := -2.0,
    "UNEMPLOYMENT" := 10.0,
    "INFLATION" := 8.0,
    "DEBT_GDP" := 100.0
  ]

  /** The codes whose alert fires at or above the threshold; the others fire at or below it. */
  const AlarmAbove: seq<string> := ["UNEMPLOYMENT", "INFLATION", "DEBT_GDP"]

  /** `value >= threshold` or `value <= threshold`, by the code's polarity. */
  predicate Breaches(code: string, value: Number, threshold: real)
  {
    if code in AlarmAbove then AtLeast(value, threshold) else AtMost(value, threshold)
  }

  /** The threshold test on one item: its code has a threshold and its parsed value breaches it. */
  predicate Fires(o: Observation)
  {
    o.indicatorCode in AlertThresholds && Breaches(o.indicatorCode, ParseFloat(o.value), AlertThresholds[o.indicatorCode])
  }

  /** `lastUpdated: new Date()` over the item's fields. */
  function Stamp(o: Observation, now: Time): (r: Observation)
    ensures r.lastUpdated == now && KeyOf(r) == KeyOf(o)
  {
    o.(lastUpdated := now)
  }

  /** The batch as it is written: every item stamped with the run's time. */
  function StampAll(os: seq<Observation>, now: Time): (r: seq<Observation>)
    ensures |r| == |os|
    decreases |os|
  {
    if os == [] then [] else StampAll(os[..|os| - 1], now) + [Stamp(os[|os| - 1], now)]
  }

  /**
   * The alert `Alert.create` is asked to store for a firing item. `fmt` is
   * JavaScript's number-to-string conversion, used inside the message.
   */
  function AlertFor(o: Observation, fmt: real -> string, now: Time): (a: AlertModel.Alert)
    requires Fires(o)
  {
    var threshold := AlertThresholds[o.indicatorCode];
    var value := ParseFloat(o.value).x;
    AlertModel.NewAlert(
      "Threshold Alert: " + o.indicatorName,
      o.countryCode + " " + o.indicatorName + " = " + fmt(value) + o.unit
        + ", exceeded threshold of " + fmt(threshold) + o.unit,
      AlertModel.High, AlertModel.Economic, o.countryCode,
      Some(AlertModel.TriggerData(o.indicatorCode, threshold, value)), now)
  }

  /** What every alert the scheduler creates looks like: a valid, active, high-severity economic alert recording a real breach. */
  predicate IsThresholdAlert(a: AlertModel.Alert)
  {
    && AlertModel.ValidAlert(a)
    && a.severity == AlertModel.High && a.alertType == AlertModel.Economic
    && a.isActive && a.acknowledgedBy == None && IsUpper(a.countryCode)
    && a.triggerData.Some?
    && var t := a.triggerData.value;
       t.indicatorCode in AlertThresholds && t.threshold == AlertThresholds[t.indicatorCode]
       && Breaches(t.indicatorCode, Finite(t.actualValue), t.threshold)
  }

  /** The state of a run: both collections, and whether an exception has ended it. */
  datatype SyncState = SyncState(store: Store, alerts: seq<AlertModel.Alert>, stopped: bool)

  /**
   * The item at position `i` of the batch ends the run: the database refuses its
   * upsert (`i` in `rejected`), or its alert fails the Alert schema.
   */
  predicate Fails(o: Observation, i: nat, fmt: real -> string, now: Time, rejected: set<nat>)
  {
    i in rejected || (Fires(o) && !AlertModel.ValidAlert(AlertFor(o, fmt, now)))
  }

  /** One iteration of the loop body, on the item at position `i`. */
  function Step(s: SyncState, o: Observation, i: nat, fmt: real -> string, now: Time, rejected: set<nat>): SyncState
  {
    if i in rejected then s.(stopped := true)
    else
      var st := Upsert(s.store, Stamp(o, now));
      if !Fires(o) then SyncState(st, s.alerts, false)
      else
        var a := AlertFor(o, fmt, now);
        if AlertModel.ValidAlert(a) then SyncState(st, s.alerts + [a], false)
        else SyncState(st, s.alerts, true)
  }

  /** The loop over the combined batch, stopping at the first exception. */
  function Run(st: Store, al: seq<AlertModel.Alert>, items: seq<Observation>,
               fmt: real -> string, now: Time, rejected: set<nat>): SyncState
    decreases |items|
  {
    if items == [] then SyncState(st, al, false)
    else
      var prev := Run(st, al, items[..|items| - 1], fmt, now, rejected);
      if prev.stopped then prev else Step(prev, items[|items| - 1], |items| - 1, fmt, now, rejected)
  }


  /** A run stops on a step exactly when that step's item fails. */
  lemma StepStops(s: SyncState, o: Observation, i: nat, fmt: real -> string, now: Time, rejected: set<nat>)
    requires !s.stopped
    ensures Step(s, o, i, fmt, now, rejected).stopped <==> Fails(o, i, fmt, now, rejected)
  {
  }

  /** A step upserts its item, stamped, unless the database refuses it. */
  lemma StepStore(s: SyncState, o: Observation, i: nat, fmt: real -> string, now: Time, rejected: set<nat>)
    ensures Step(s, o, i, fmt, now, rejected).store ==
            if i in rejected then s.store else Upsert(s.store, Stamp(o, now))
  {
    if i !in rejected && Fires(o) {
      var a := AlertFor(o, fmt, now);
      if AlertModel.ValidAlert(a) {
        assert Step(s, o, i, fmt, now, rejected).store == Upsert(s.store, Stamp(o, now));
      }
    }
  }

  /** A step appends its item's alert when the item fires and does not fail, and nothing otherwise. */
  lemma StepAlerts(s: SyncState, o: Observation, i: nat, fmt: real -> string, now: Time, rejected: set<nat>)
    ensures Step(s, o, i, fmt, now, rejected).alerts ==
            if Fails(o, i, fmt, now, rejected) || !Fires(o) then s.alerts else s.alerts + [AlertFor(o, fmt, now)]
  {
  }

  /** A whole run of `syncData`: a failed fetch ends it before anything is written. */
  function Sync(st: Store, al: seq<AlertModel.Alert>, wb: Result<seq<Observation>>, imf: Result<seq<Observation>>,
                fmt: real -> string, now: Time, rejected: set<nat>): SyncState
  {
    if wb.Err? || imf.Err? then SyncState(st, al, true)
    else Run(st, al, wb.value + imf.value, fmt, now, rejected)
  }

  /** The alerts a run that never stops creates: one per firing item, in batch order. */
  function AlertsOf(items: seq<Observation>, fmt: real -> string, now: Time): (r: seq<AlertModel.Alert>)
    ensures |r| <= |items|
    decreases |items|
  {
    if items == [] then []
    else
      var init := AlertsOf(items[..|items| - 1], fmt, now);
      var last := items[|items| - 1];
      if Fires(last) then init + [AlertFor(last, fmt, now)] else init
  }

  /**
   * `syncData()`: returns whether the run completed. `wbFetch` and `imfFetch` are
   * the two adapters' answers, `rejected` the batch positions whose upsert the
   * database refuses, `now` the run's `new Date()`.
   */
  method SyncData(db: Database, wbFetch: Result<seq<Observation>>, imfFetch: Result<seq<Observation>>,
                  fmt: real -> string, now: Time, rejected: set<nat>) returns (completed: bool)
    modifies db
    ensures var r := Sync(old(db.indicators), old(db.alerts), wbFetch, imfFetch, fmt, now, rejected);
            db.indicators == r.store && db.alerts == r.alerts && completed == !r.stopped
  {
    if wbFetch.Err? || imfFetch.Err? {
      return false;
    }
    var all := wbFetch.value + imfFetch.value;
    ghost var st0 := db.indicators;
    ghost var al0 := db.alerts;
    var i := 0;
    while i < |all|
      invariant 0 <= i <= |all|
      invariant Run(st0, al0, all[..i], fmt, now, rejected) == SyncState(db.indicators, db.alerts, false)
    {
      ghost var prev := SyncState(db.indicators, db.alerts, false);
      RunPrefix(st0, al0, all, i, fmt, now, rejected);
      var ok := SyncItem(db, all[i], i, fmt, now, rejected);
      if !ok {
        assert Sync(st0, al0, wbFetch, imfFetch, fmt, now, rejected) == SyncState(db.indicators, db.alerts, true) by {
          StoppedStays(st0, al0, all, i + 1, fmt, now, rejected);
        }
        return false;
      }
      i := i + 1;
    }
    assert Sync(st0, al0, wbFetch, imfFetch, fmt, now, rejected) == SyncState(db.indicators, db.alerts, false) by {
      assert all[..i] == all;
    }
    completed := true;
  }

  /**
   * The body of the loop on the item at position `i`: upsert it, stamped, and
   * save an alert when its value crosses its code's threshold. `ok` is false
   * when an exception ends the run.
   */
  method SyncItem(db: Database, item: Observation, i: nat, fmt: real -> string, now: Time, rejected: set<nat>)
    returns (ok: bool)
    modifies db
    ensures SyncState(db.indicators, db.alerts, !ok) ==
            Step(SyncState(old(db.indicators), old(db.alerts), false), item, i, fmt, now, rejected)
  {
    ghost var prev := SyncState(db.indicators, db.alerts, false);
    if i in rejected {
      StepHalts(prev, item, i, fmt, now, rejected);
      return false;
    }
    db.indicators := Upsert(db.indicators, Stamp(item, now));
    if item.indicatorCode in AlertThresholds {
      var threshold := AlertThresholds[item.indicatorCode];
      var value := ParseFloat(item.value);
      var isAlert := if item.indicatorCode in AlarmAbove then AtLeast(value, threshold) else AtMost(value, threshold);
      if isAlert {
        assert Fires(item);
        var alert := AlertFor(item, fmt, now);
        if !AlertModel.ValidAlert(alert) {
          StepHalts(prev, item, i, fmt, now, rejected);
          return false;
        }
        db.alerts := db.alerts + [alert];
      } else {
        assert !Fires(item);
      }
    } else {
      assert !Fires(item);
    }
    StepLive(prev, item, i, fmt, now, rejected);
    ok := true;
  }

  /** A step on an item that does not fail writes the item and appends its alert if it fires. */
  lemma StepLive(s: SyncState, o: Observation, i: nat, fmt: real -> string, now: Time, rejected: set<nat>)
    requires !Fails(o, i, fmt, now, rejected)
    ensures Step(s, o, i, fmt, now, rejected) ==
            SyncState(Upsert(s.store, Stamp(o, now)),
                      if Fires(o) then s.alerts + [AlertFor(o, fmt, now)] else s.alerts, false)
  {
  }

  /** A step on a failing item stops the run, keeping the alerts and, unless refused, writing the item. */
  lemma StepHalts(s: SyncState, o: Observation, i: nat, fmt: real -> string, now: Time, rejected: set<nat>)
    requires !s.stopped && Fails(o, i, fmt, now, rejected)
    ensures Step(s, o, i, fmt, now, rejected) ==
            SyncState(if i in rejected then s.store else Upsert(s.store, Stamp(o, now)), s.alerts, true)
  {
  }

  /** Extending a prefix of the batch by one item performs that item's step, unless the run has stopped. */
  lemma RunPrefix(st: Store, al: seq<AlertModel.Alert>, items: seq<Observation>, i: nat,
                  fmt: real -> string, now: Time, rejected: set<nat>)
    requires i < |items|
    ensures var prev := Run(st, al, items[..i], fmt, now, rejected);
            Run(st, al, items[..i + 1], fmt, now, rejected) ==
              if prev.stopped then prev else Step(prev, items[i], i, fmt, now, rejected)
  {
    assert items[..i + 1][..i] == items[..i];
  }

  /** Once a prefix of the batch has stopped the run, the rest of the batch changes nothing. */
  lemma {:induction false} StoppedStays(st: Store, al: seq<AlertModel.Alert>, items: seq<Observation>, i: nat,
                                        fmt: real -> string, now: Time, rejected: set<nat>)
    requires i <= |items| && Run(st, al, items[..i], fmt, now, rejected).stopped
    ensures Run(st, al, items, fmt, now, rejected) == Run(st, al, items[..i], fmt, now, rejected)
    decreases |items|
  {
    if i == |items| {
      assert items[..i] == items;
    } else {
      var init := items[..|items| - 1];
      assert init[..i] == items[..i];
      StoppedStays(st, al, init, i, fmt, now, rejected);
    }
  }

  /** A run that is not stopped has upserted every item, stamped with `now`, in batch order. */
  lemma {:induction false} CompletedRunStore(st: Store, al: seq<AlertModel.Alert>, items: seq<Observation>,
                                             fmt: real -> string, now: Time, rejected: set<nat>)
    requires !Run(st, al, items, fmt, now, rejected).stopped
    ensures Run(st, al, items, fmt, now, rejected).store == ApplyUpserts(st, StampAll(items, now))
    decreases |items|
  {
    if items != [] {
      var init := items[..|items| - 1];
      var last := items[|items| - 1];
      var prev := Run(st, al, init, fmt, now, rejected);
      RunUnfold(st, al, items, fmt, now, rejected);
      assert Run(st, al, items, fmt, now, rejected).store == Upsert(prev.store, Stamp(last, now)) by {
        StepStops(prev, last, |init|, fmt, now, rejected);
        StepStore(prev, last, |init|, fmt, now, rejected);
      }
      CompletedRunStore(st, al, init, fmt, now, rejected);
      ApplyUpsertsSnoc(st, StampAll(init, now), Stamp(last, now));
    }
  }

  /** A run that is not stopped has appended one alert per firing item, in batch order. */
  lemma {:induction false} CompletedRunAlerts(st: Store, al: seq<AlertModel.Alert>, items: seq<Observation>,
                                              fmt: real -> string, now: Time, rejected: set<nat>)
    requires !Run(st, al, items, fmt, now, rejected).stopped
    ensures Run(st, al, items, fmt, now, rejected).alerts == al + AlertsOf(items, fmt, now)
    decreases |items|
  {
    if items != [] {
      var init := items[..|items| - 1];
      var last := items[|items| - 1];
      var extra := if Fires(last) then [AlertFor(last, fmt, now)] else [];
      RunLastAlerts(st, al, items, fmt, now, rejected);
      CompletedRunAlerts(st, al, init, fmt, now, rejected);
      AlertsOfLast(items, fmt, now);
      assert al + AlertsOf(init, fmt, now) + extra == al + (AlertsOf(init, fmt, now) + extra);
    }
  }

  /** The last step of a run that is not stopped: its predecessor was not stopped either, and it appended the item's alert if any. */
  lemma RunLastAlerts(st: Store, al: seq<AlertModel.Alert>, items: seq<Observation>,
                      fmt: real -> string, now: Time, rejected: set<nat>)
    requires items != [] && !Run(st, al, items, fmt, now, rejected).stopped
    ensures var last := items[|items| - 1];
            var prev := Run(st, al, items[..|items| - 1], fmt, now, rejected);
            !prev.stopped &&
            Run(st, al, items, fmt, now, rejected).alerts ==
              prev.alerts + if Fires(last) then [AlertFor(last, fmt, now)] else []
  {
    var init := items[..|items| - 1];
    var prev := Run(st, al, init, fmt, now, rejected);
    RunUnfold(st, al, items, fmt, now, rejected);
    StepStops(prev, items[|items| - 1], |init|, fmt, now, rejected);
    StepAlerts(prev, items[|items| - 1], |init|, fmt, now, rejected);
  }

  lemma RunUnfold(st: Store, al: seq<AlertModel.Alert>, items: seq<Observation>,
                  fmt: real -> string, now: Time, rejected: set<nat>)
    requires items != [] && !Run(st, al, items, fmt, now, rejected).stopped
    ensures var prev := Run(st, al, items[..|items| - 1], fmt, now, rejected);
            !prev.stopped && Run(st, al, items, fmt, now, rejected) == Step(prev, items[|items| - 1], |items| - 1, fmt, now, rejected)
  {
  }

  lemma AlertsOfLast(items: seq<Observation>, fmt: real -> string, now: Time)
    requires items != []
    ensures AlertsOf(items, fmt, now) == AlertsOf(items[..|items| - 1], fmt, now) +
              if Fires(items[|items| - 1]) then [AlertFor(items[|items| - 1], fmt, now)] else []
  {
  }

  /** No item of the batch fails, read item by item from the end. */
  predicate NoneFail(items: seq<Observation>, fmt: real -> string, now: Time, rejected: set<nat>)
    decreases |items|
  {
    items == [] || (NoneFail(items[..|items| - 1], fmt, now, rejected)
                    && !Fails(items[|items| - 1], |items| - 1, fmt, now, rejected))
  }

  lemma {:induction false} NoneFailAll(items: seq<Observation>, fmt: real -> string, now: Time, rejected: set<nat>)
    ensures NoneFail(items, fmt, now, rejected) <==>
            forall i :: 0 <= i < |items| ==> !Fails(items[i], i, fmt, now, rejected)
    decreases |items|
  {
    if items != [] {
      var init := items[..|items| - 1];
      NoneFailAll(init, fmt, now, rejected);
      assert forall i :: 0 <= i < |init| ==> init[i] == items[i];
    }
  }

  lemma {:induction false} CompletesIffNoneFail(st: Store, al: seq<AlertModel.Alert>, items: seq<Observation>,
                                                fmt: real -> string, now: Time, rejected: set<nat>)
    ensures !Run(st, al, items, fmt, now, rejected).stopped <==> NoneFail(items, fmt, now, rejected)
    decreases |items|
  {
    if items != [] {
      var init := items[..|items| - 1];
      var prev := Run(st, al, init, fmt, now, rejected);
      if !prev.stopped {
        StepStops(prev, items[|items| - 1], |init|, fmt, now, rejected);
      }
      CompletesIffNoneFail(st, al, init, fmt, now, rejected);
    }
  }

  /** The run completes exactly when no item of the batch fails. */
  lemma CompletesIff(st: Store, al: seq<AlertModel.Alert>, items: seq<Observation>,
                     fmt: real -> string, now: Time, rejected: set<nat>)
    ensures !Run(st, al, items, fmt, now, rejected).stopped <==>
            forall i :: 0 <= i < |items| ==> !Fails(items[i], i, fmt, now, rejected)
  {
    CompletesIffNoneFail(st, al, items, fmt, now, rejected);
    NoneFailAll(items, fmt, now, rejected);
  }

  /**
   * A run stops at the first failing item `f`: the items before it are all
   * upserted with their alerts, `f` itself is upserted unless the database
   * refused it, and nothing after it is written.
   */
  lemma StopsAtFirstFailure(st: Store, al: seq<AlertModel.Alert>, items: seq<Observation>, f: nat,
                            fmt: real -> string, now: Time, rejected: set<nat>)
    requires f < |items| && Fails(items[f], f, fmt, now, rejected)
    requires forall j :: 0 <= j < f ==> !Fails(items[j], j, fmt, now, rejected)
    ensures var r := Run(st, al, items, fmt, now, rejected);
            var written := if f in rejected then f else f + 1;
            && r.stopped
            && r.store == ApplyUpserts(st, StampAll(items[..written], now))
            && r.alerts == al + AlertsOf(items[..f], fmt, now)
  {
    var pre := items[..f];
    var prev := Run(st, al, pre, fmt, now, rejected);
    assert !prev.stopped by {
      assert forall j :: 0 <= j < |pre| ==> pre[j] == items[j];
      CompletesIff(st, al, pre, fmt, now, rejected);
    }
    var r := Run(st, al, items[..f + 1], fmt, now, rejected);
    FailingStep(st, al, items, f, fmt, now, rejected);
    StoppedStays(st, al, items, f + 1, fmt, now, rejected);
    var written := if f in rejected then f else f + 1;
    assert r.store == ApplyUpserts(st, StampAll(items[..written], now)) by {
      CompletedRunStore(st, al, pre, fmt, now, rejected);
      if f !in rejected {
        StampedPrefixStep(st, items, f, now);
      }
    }
    assert r.alerts == al + AlertsOf(pre, fmt, now) by {
      CompletedRunAlerts(st, al, pre, fmt, now, rejected);
    }
  }

  /** The step on the failing item `f` after a prefix that completed: the run stops, adds no alert, and writes `f` unless it was refused. */
  lemma FailingStep(st: Store, al: seq<AlertModel.Alert>, items: seq<Observation>, f: nat,
                    fmt: real -> string, now: Time, rejected: set<nat>)
    requires f < |items| && Fails(items[f], f, fmt, now, rejected)
    requires !Run(st, al, items[..f], fmt, now, rejected).stopped
    ensures var prev := Run(st, al, items[..f], fmt, now, rejected);
            var r := Run(st, al, items[..f + 1], fmt, now, rejected);
            && r.stopped && r.alerts == prev.alerts
            && r.store == if f in rejected then prev.store else Upsert(prev.store, Stamp(items[f], now))
  {
    var upto := items[..f + 1];
    var prev := Run(st, al, items[..f], fmt, now, rejected);
    assert upto[..f] == items[..f];
    assert Run(st, al, upto, fmt, now, rejected) == Step(prev, items[f], f, fmt, now, rejected);
    StepStops(prev, items[f], f, fmt, now, rejected);
    StepAlerts(prev, items[f], f, fmt, now, rejected);
    StepStore(prev, items[f], f, fmt, now, rejected);
  }

  /** Writing the stamped prefix up to `f` is writing the prefix before `f`, then item `f`. */
  lemma StampedPrefixStep(st: Store, items: seq<Observation>, f: nat, now: Time)
    requires f < |items|
    ensures ApplyUpserts(st, StampAll(items[..f + 1], now)) ==
            Upsert(ApplyUpserts(st, StampAll(items[..f], now)), Stamp(items[f], now))
  {
    var upto := items[..f + 1];
    assert upto[..f] == items[..f];
    assert StampAll(upto, now) == StampAll(items[..f], now) + [Stamp(items[f], now)];
    ApplyUpsertsSnoc(st, StampAll(items[..f], now), Stamp(items[f], now));
  }

  /** The item's alert, when the schema accepts it, is a threshold alert. */
  lemma AlertForShape(o: Observation, fmt: real -> string, now: Time)
    requires Fires(o) && AlertModel.ValidAlert(AlertFor(o, fmt, now))
    ensures IsThresholdAlert(AlertFor(o, fmt, now))
  {
  }

  /** The alerts from position `n` on are all threshold alerts. */
  predicate ThresholdAlertsFrom(alerts: seq<AlertModel.Alert>, n: nat)
  {
    forall j :: n <= j < |alerts| ==> IsThresholdAlert(alerts[j])
  }

  lemma AppendThresholdAlerts(alerts: seq<AlertModel.Alert>, extra: seq<AlertModel.Alert>, n: nat)
    requires n <= |alerts| && ThresholdAlertsFrom(alerts, n) && ThresholdAlertsFrom(extra, 0)
    ensures ThresholdAlertsFrom(alerts + extra, n) && (alerts + extra)[..n] == alerts[..n]
  {
    assert forall j :: n <= j < |alerts + extra| ==>
      (alerts + extra)[j] == if j < |alerts| then alerts[j] else extra[j - |alerts|];
  }

  /** A step keeps the alerts already stored and adds at most one. */
  lemma StepAlertsGrow(s: SyncState, o: Observation, i: nat, fmt: real -> string, now: Time, rejected: set<nat>)
    ensures var r := Step(s, o, i, fmt, now, rejected);
            |s.alerts| <= |r.alerts| <= |s.alerts| + 1 && r.alerts[..|s.alerts|] == s.alerts
  {
    var r := Step(s, o, i, fmt, now, rejected);
    StepAlerts(s, o, i, fmt, now, rejected);
    if Fails(o, i, fmt, now, rejected) || !Fires(o) {
      assert r.alerts[..|s.alerts|] == s.alerts;
    } else {
      KeepsPrefix(s.alerts, AlertFor(o, fmt, now));
    }
  }

  lemma KeepsPrefix<T>(xs: seq<T>, x: T)
    ensures |xs + [x]| == |xs| + 1 && (xs + [x])[..|xs|] == xs
  {
  }

  /** A step adds only threshold alerts. */
  lemma StepAddsThresholdAlerts(s: SyncState, o: Observation, i: nat, n: nat, fmt: real -> string, now: Time, rejected: set<nat>)
    requires n <= |s.alerts| && ThresholdAlertsFrom(s.alerts, n)
    ensures ThresholdAlertsFrom(Step(s, o, i, fmt, now, rejected).alerts, n)
  {
    if i !in rejected && Fires(o) && AlertModel.ValidAlert(AlertFor(o, fmt, now)) {
      AlertForShape(o, fmt, now);
      AppendThresholdAlerts(s.alerts, [AlertFor(o, fmt, now)], n);
    }
  }

  lemma PrefixOfPrefix<T>(c: seq<T>, b: seq<T>, a: seq<T>)
    requires |b| <= |c| && c[..|b|] == b && |a| <= |b| && b[..|a|] == a
    ensures c[..|a|] == a
  {
    assert c[..|a|] == c[..|b|][..|a|];
  }

  /** A run keeps the alerts already stored and adds at most one alert per item. */
  lemma {:induction false} RunAlertsBounded(st: Store, al: seq<AlertModel.Alert>, items: seq<Observation>,
                                            fmt: real -> string, now: Time, rejected: set<nat>)
    ensures var r := Run(st, al, items, fmt, now, rejected);
            |al| <= |r.alerts| <= |al| + |items| && r.alerts[..|al|] == al
    decreases |items|
  {
    if items != [] {
      RunAlertsBounded(st, al, items[..|items| - 1], fmt, now, rejected);
      LastStepBounded(st, al, items, fmt, now, rejected);
    }
  }

  /** The induction step of `RunAlertsBounded`: the last item adds at most one alert and keeps the others. */
  lemma LastStepBounded(st: Store, al: seq<AlertModel.Alert>, items: seq<Observation>,
                        fmt: real -> string, now: Time, rejected: set<nat>)
    requires items != []
    requires var prev := Run(st, al, items[..|items| - 1], fmt, now, rejected);
             |al| <= |prev.alerts| <= |al| + |items| - 1 && prev.alerts[..|al|] == al
    ensures var r := Run(st, al, items, fmt, now, rejected);
            |al| <= |r.alerts| <= |al| + |items| && r.alerts[..|al|] == al
  {
    var init := items[..|items| - 1];
    var prev := Run(st, al, init, fmt, now, rejected);
    if !prev.stopped {
      var r := Run(st, al, items, fmt, now, rejected);
      assert |prev.alerts| <= |r.alerts| <= |prev.alerts| + 1 && r.alerts[..|prev.alerts|] == prev.alerts by {
        StepAlertsGrow(prev, items[|items| - 1], |init|, fmt, now, rejected);
      }
      PrefixOfPrefix(r.alerts, prev.alerts, al);
    }
  }

  /** Every alert a run adds is a valid, active, high-severity economic alert recording a real breach. */
  lemma {:induction false} RunAlertsAreThresholdAlerts(st: Store, al: seq<AlertModel.Alert>, items: seq<Observation>,
                                                       fmt: real -> string, now: Time, rejected: set<nat>)
    ensures ThresholdAlertsFrom(Run(st, al, items, fmt, now, rejected).alerts, |al|)
    decreases |items|
  {
    if items != [] {
      RunAlertsAreThresholdAlerts(st, al, items[..|items| - 1], fmt, now, rejected);
      LastStepThresholdAlerts(st, al, items, fmt, now, rejected);
    }
  }

  /** The induction step of `RunAlertsAreThresholdAlerts`: the last item adds only threshold alerts. */
  lemma LastStepThresholdAlerts(st: Store, al: seq<AlertModel.Alert>, items: seq<Observation>,
                                fmt: real -> string, now: Time, rejected: set<nat>)
    requires items != []
    requires ThresholdAlertsFrom(Run(st, al, items[..|items| - 1], fmt, now, rejected).alerts, |al|)
    ensures ThresholdAlertsFrom(Run(st, al, items, fmt, now, rejected).alerts, |al|)
  {
    var init := items[..|items| - 1];
    var prev := Run(st, al, init, fmt, now, rejected);
    if !prev.stopped {
      RunAlertsBounded(st, al, init, fmt, now, rejected);
      StepAddsThresholdAlerts(prev, items[|items| - 1], |init|, |al|, fmt, now, rejected);
    }
  }

  /** Only an item whose exact code has a threshold and whose value is a number can raise an alert. */
  lemma FiringNeedsNumber(o: Observation)
    requires Fires(o)
    ensures o.value.Num? && o.indicatorCode in AlertThresholds
  {
  }

  /** Each code's alert condition, both directions, inclusive at the threshold. */
  lemma FiresIff(o: Observation)
    ensures o.indicatorCode == "GDP_GROWTH" ==> (Fires(o) <==> o.value.Num? && o.value.x <= -2.0)
    ensures o.indicatorCode == "UNEMPLOYMENT" ==> (Fires(o) <==> o.value.Num? && o.value.x >= 10.0)
    ensures o.indicatorCode == "INFLATION" ==> (Fires(o) <==> o.value.Num? && o.value.x >= 8.0)
    ensures o.indicatorCode == "DEBT_GDP" ==> (Fires(o) <==> o.value.Num? && o.value.x >= 100.0)
    ensures o.indicatorCode !in AlertThresholds ==> !Fires(o)
  {
  }

  /**
   * Case is significant: the adapters' codes (`NY.GDP.MKTP.CD`, `NGDP_RPCH`, ...)
   * and a lower-case `gdp_growth` never match a threshold.
   */
  lemma ThresholdCodeExamples(o: Observation)
    requires o.indicatorCode in ["gdp_growth", "NY.GDP.MKTP.KD.ZG", "NGDP_RPCH", "LUR"]
    ensures !Fires(o)
  {
  }

  /** The alert title fits the schema's 200 characters exactly when the indicator name has at most 183. */
  lemma TitleFits(o: Observation, fmt: real -> string, now: Time)
    requires Fires(o)
    ensures 0 < |AlertFor(o, fmt, now).title|
    ensures |AlertFor(o, fmt, now).title| <= AlertModel.MaxTitle <==> |o.indicatorName| <= 183
  {
  }

  /**
   * Running the same batch a second time with the same timestamp (both runs
   * completing) leaves the indicator collection as the first run left it, and
   * creates every alert a second time: alerts are not deduplicated.
   */
  lemma SecondRunDuplicatesAlerts(st: Store, al: seq<AlertModel.Alert>, items: seq<Observation>,
                                  fmt: real -> string, now: Time, rejected: set<nat>)
    requires !Run(st, al, items, fmt, now, rejected).stopped
    requires var r := Run(st, al, items, fmt, now, rejected);
             !Run(r.store, r.alerts, items, fmt, now, rejected).stopped
    ensures var r := Run(st, al, items, fmt, now, rejected);
            var r2 := Run(r.store, r.alerts, items, fmt, now, rejected);
            r2.store == r.store && r2.alerts == al + AlertsOf(items, fmt, now) + AlertsOf(items, fmt, now)
  {
    var r := Run(st, al, items, fmt, now, rejected);
    CompletedRunStore(st, al, items, fmt, now, rejected);
    CompletedRunAlerts(st, al, items, fmt, now, rejected);
    CompletedRunStore(r.store, r.alerts, items, fmt, now, rejected);
    CompletedRunAlerts(r.store, r.alerts, items, fmt, now, rejected);
    ApplyUpsertsIdempotent(st, StampAll(items, now));
  }

  /** A failed fetch of either source writes nothing. */
  lemma FetchFailureWritesNothing(st: Store, al: seq<AlertModel.Alert>, wb: Result<seq<Observation>>,
                                  imf: Result<seq<Observation>>, fmt: real -> string, now: Time, rejected: set<nat>)
    requires wb.Err? || imf.Err?
    ensures Sync(st, al, wb, imf, fmt, now, rejected) == SyncState(st, al, true)
  {
  }
}

// The alerts controller: listing alerts filtered by `isActive` and sorted
// newest first, and acknowledging one alert.

module AlertControls {
  import opened JsValues
  import opened AlertModel
  import opened Filters
  import IndicatorStore

  // ---------------------------------------------------------------------------
  // PUT /api/alerts/:id/acknowledge

  /** The three fields the controller assigns before saving; everything else is kept. */
  function Acknowledge(a: Alert, user: string, now: Time): (b: Alert)
    ensures !b.isActive && b.acknowledgedBy == Some(user) && b.acknowledgedAt == Some(now)
    ensures b.title == a.title && b.message == a.message && b.severity == a.severity
    ensures b.alertType == a.alertType && b.countryCode == a.countryCode
    ensures b.triggerData == a.triggerData && b.createdAt == a.createdAt
  {
    a.(isActive := false, acknowledgedBy := Some(user), acknowledgedAt := Some(now))
  }

  /** Acknowledging does not touch the validated fields, so a valid alert stays valid. */
  lemma AcknowledgeKeepsValid(a: Alert, user: string, now: Time)
    requires ValidAlert(a)
    ensures ValidAlert(Acknowledge(a, user, now))
  {
  }

  /** There is no guard against a second acknowledgement: it re-stamps the actor and the time. */
  lemma AcknowledgeAgain(a: Alert, u1: string, t1: Time, u2: string, t2: Time)
    ensures Acknowledge(Acknowledge(a, u1, t1), u2, t2) == Acknowledge(a, u2, t2)
    ensures Acknowledge(Acknowledge(a, u1, t1), u2, t2).acknowledgedBy == Some(u2)
  {
  }

  /** The acknowledged alert differs from the original only in the three acknowledgement fields. */
  lemma AcknowledgeOnlyStamps(a: Alert, user: string, now: Time)
    ensures Acknowledge(a, user, now).(isActive := a.isActive, acknowledgedBy := a.acknowledgedBy,
                                       acknowledgedAt := a.acknowledgedAt) == a
  {
  }

  datatype AckResponse = AckNotFound(message: string) | Acknowledged(data: Alert)

  const AlertNotFound: string := "Alert not found"

  /**
   * `acknowledgeAlert` on the alert collection: the alert at position `id`,
   * when there is one, is stamped and written back; an unknown id is a 404
   * and changes nothing.
   */
  method AcknowledgeAlert(db: IndicatorStore.Database, id: int, user: string, now: Time) returns (r: AckResponse)
    modifies db
    ensures r.AckNotFound? <==> !(0 <= id < |old(db.alerts)|)
    ensures r.AckNotFound? ==> r.message == AlertNotFound && db.alerts == old(db.alerts)
    ensures r.Acknowledged? ==> db.alerts == old(db.alerts)[id := Acknowledge(old(db.alerts)[id], user, now)]
    ensures r.Acknowledged? ==> r.data == db.alerts[id]
    ensures db.indicators == old(db.indicators)
  {
    if !(0 <= id < |db.alerts|) {
      return AckNotFound(AlertNotFound);
    }
    var alert := db.alerts[id];
    alert := alert.(isActive := false);
    alert := alert.(acknowledgedBy := Some(user));
    alert := alert.(acknowledgedAt := Some(now));
    db.alerts := db.alerts[id := alert];
    r := Acknowledged(alert);
  }

  /** Acknowledging one alert leaves every other alert as it was. */
  lemma AcknowledgeOthersUnchanged(alerts: seq<Alert>, id: nat, user: string, now: Time, j: nat)
    requires id < |alerts| && j < |alerts| && j != id
    ensures alerts[id := Acknowledge(alerts[id], user, now)][j] == alerts[j]
    ensures |alerts[id := Acknowledge(alerts[id], user, now)]| == |alerts|
  {
  }

  // ---------------------------------------------------------------------------
  // GET /api/alerts

  /** `query.isActive = (param === 'true')`, set only when the parameter is present. */
  predicate Selected(isActive: Option<string>, a: Alert)
  {
    isActive.None? || a.isActive == (isActive.value == "true")
  }

  /** The alerts the query selects, in their stored order, each as often as it is stored. */
  function Filtered(alerts: seq<Alert>, isActive: Option<string>): (r: seq<Alert>)
    ensures multiset(r) <= multiset(alerts)
    ensures forall a :: a in r <==> a in alerts && Selected(isActive, a)
    ensures forall a :: multiset(r)[a] == if Selected(isActive, a) then multiset(alerts)[a] else 0
  {
    Keep(alerts, (a: Alert) => Selected(isActive, a))
  }

  /** Filtering a concatenation filters each part and keeps the parts in order. */
  lemma FilteredAppend(xs: seq<Alert>, ys: seq<Alert>, isActive: Option<string>)
    ensures Filtered(xs + ys, isActive) == Filtered(xs, isActive) + Filtered(ys, isActive)
  {
    KeepAppend(xs, ys, (a: Alert) => Selected(isActive, a));
  }

  /** `.sort({createdAt: -1})`: newest first. */
  predicate NewestFirst(s: seq<Alert>)
  {
    forall i, j :: 0 <= i < j < |s| ==> s[i].createdAt >= s[j].createdAt
  }

  function Insert(a: Alert, s: seq<Alert>): (r: seq<Alert>)
    requires NewestFirst(s)
    ensures NewestFirst(r)
    ensures multiset(r) == multiset(s) + multiset{a}
    decreases |s|
  {
    if s == [] || a.createdAt >= s[0].createdAt then
      PrependNewest(a, s);
      [a] + s
    else
      var rest := Insert(a, s[1..]);
      assert s == [s[0]] + s[1..];
      InsertBelow(a, s, rest);
      PrependNewest(s[0], rest);
      [s[0]] + rest
  }

  lemma PrependNewest(x: Alert, s: seq<Alert>)
    requires NewestFirst(s)
    requires forall k :: 0 <= k < |s| ==> s[k].createdAt <= x.createdAt
    ensures NewestFirst([x] + s)
  {
  }

  /** Whatever is inserted below the head of a sorted sequence stays no newer than that head. */
  lemma InsertBelow(a: Alert, s: seq<Alert>, rest: seq<Alert>)
    requires |s| > 0 && NewestFirst(s) && a.createdAt < s[0].createdAt
    requires multiset(rest) == multiset(s[1..]) + multiset{a}
    ensures forall k :: 0 <= k < |rest| ==> rest[k].createdAt <= s[0].createdAt
  {
    forall k | 0 <= k < |rest|
      ensures rest[k].createdAt <= s[0].createdAt
    {
      assert rest[k] in multiset(rest);
      if rest[k] != a {
        assert rest[k] in multiset(s[1..]);
        var m :| 0 <= m < |s[1..]| && s[1..][m] == rest[k];
        assert s[m + 1] == rest[k];
      }
    }
  }

  /** The sorted order of the query's result, newest first. */
  function SortNewestFirst(s: seq<Alert>): (r: seq<Alert>)
    ensures NewestFirst(r)
    ensures multiset(r) == multiset(s)
    decreases |s|
  {
    if s == [] then []
    else
      assert s == [s[0]] + s[1..];
      Insert(s[0], SortNewestFirst(s[1..]))
  }

  /** `getAlerts`: the selected alerts, newest first. */
  function GetAlerts(alerts: seq<Alert>, isActive: Option<string>): (r: seq<Alert>)
    ensures NewestFirst(r)
    ensures multiset(r) == multiset(Filtered(alerts, isActive))
    ensures forall a :: a in r <==> a in alerts && Selected(isActive, a)
  {
    var r := SortNewestFirst(Filtered(alerts, isActive));
    assert forall a :: a in r <==> a in multiset(r);
    r
  }

  /** Without the parameter every alert is returned. */
  lemma NoParamReturnsAll(alerts: seq<Alert>)
    ensures multiset(GetAlerts(alerts, None)) == multiset(alerts)
  {
    FilteredAll(alerts);
  }

  lemma FilteredAll(alerts: seq<Alert>)
    ensures Filtered(alerts, None) == alerts
  {
    KeepAll(alerts, (a: Alert) => Selected(None, a));
  }

  /** 'true' selects exactly the active alerts; any other value, 'false' or not, the inactive ones. */
  lemma ParamSelects(alerts: seq<Alert>, value: string, a: Alert)
    ensures a in GetAlerts(alerts, Some(value)) <==> a in alerts && a.isActive == (value == "true")
  {
  }
}

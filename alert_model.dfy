/**
 * The Alert document: enums, length limits, the upper-case setter on the country
 * code and the defaults a newly created alert gets.
 */
module AlertModel {
  import opened JsValues
  import opened Text

  datatype Severity = Low | Medium | High | Critical

  datatype AlertType = Economic | Social | Crisis | System

  /** The snapshot that made a threshold alert fire: exactly these three fields. */
  datatype TriggerData = TriggerData(indicatorCode: string, threshold: real, actualValue: real)

  datatype Alert = Alert(
    title: string,
    message: string,
    severity: Severity,
    alertType: AlertType,
    countryCode: string,
    triggerData: Option<TriggerData>,
    isActive: bool,
    acknowledgedBy: Option<string>,
    acknowledgedAt: Option<Time>,
    createdAt: Time)

  const MaxTitle: nat := 200
  const MaxMessage: nat := 1000

  /** The validators `Alert.create` runs: both texts required (non-empty) and bounded. */
  predicate ValidAlert(a: Alert)
  {
    0 < |a.title| <= MaxTitle && 0 < |a.message| <= MaxMessage
  }

  /** The document `Alert.create` builds: country code upper-cased, active, not acknowledged. */
  function NewAlert(title: string, message: string, severity: Severity, alertType: AlertType,
                    countryCode: string, trigger: Option<TriggerData>, now: Time): (a: Alert)
    ensures a.isActive && a.acknowledgedBy == None && a.acknowledgedAt == None
    ensures a.countryCode == ToUpper(countryCode)
    ensures a.title == title && a.message == message && a.triggerData == trigger
    ensures a.severity == severity && a.alertType == alertType && a.createdAt == now
  {
    Alert(title, message, severity, alertType, ToUpper(countryCode), trigger, true, None, None, now)
  }
}
